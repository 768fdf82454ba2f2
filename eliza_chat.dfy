/**
 * The keyword responder: the user's input, lower-cased, is searched for
 * the triggers of a fixed table in table order; the first trigger found
 * picks the reply. The chat log only ever grows.
 */
module ElizaChat {
  import opened Wrappers
  import JsString

  datatype Role = User | Assistant
  datatype MessageType = Text | Image | Chart | Code

  /**
   * What a message shows: text as given, or one of the component's fixed
   * texts, named by where it comes from (a table entry's reply, the default
   * reply, the greeting); Text() spells each out.
   */
  datatype Content = Plain(text: string) | TableReply(topic: Topic) | DefaultReply | GreetingText
  {
    function Text(): string {
      match this
      case Plain(s) => s
      case TableReply(t) => t.Response()
      case DefaultReply => "I don't have specific information about that topic yet. As a demo, I can respond to keywords like 'blockchain', 'ethereum', 'nft', 'defi', 'price', 'chart', 'code', and 'smart contract'."
      case GreetingText => "Hello! I'm Eliza, a blockchain multimodal AI assistant. I can help you with information about blockchain technology, cryptocurrencies, DeFi, NFTs, and more. I can also show charts, images, and code examples. How can I assist you today?"
    }
  }

  /** A chat message; `id` comes from the clock and is a parameter of the model (the timestamp is not modelled). */
  datatype Message = Message(id: string, role: Role, content: Content, kind: MessageType)

  /** A second reply sent after the first. */
  datatype FollowUp = FollowUp(content: string, kind: MessageType)

  /** The entries of the reply table: each has a trigger, a reply text and type, and possibly a follow-up. */
  datatype Topic = BlockchainTopic | EthereumTopic | NftTopic | ChartTopic | PriceTopic | CodeTopic | DefiTopic | SmartContractTopic
  {
    function Trigger(): string {
      match this
      case BlockchainTopic => "blockchain"
      case EthereumTopic => "ethereum"
      case NftTopic => "nft"
      case ChartTopic => "chart"
      case PriceTopic => "price"
      case CodeTopic => "code"
      case DefiTopic => "defi"
      case SmartContractTopic => "smart contract"
    }

    function Response(): string {
      match this
      case BlockchainTopic =>
        "Blockchain technology is a decentralized, distributed ledger that records transactions across multiple computers. This ensures that the record cannot be altered retroactively without the alteration of all subsequent blocks. The most well-known application is cryptocurrency, but blockchain has many applications beyond that, including smart contracts, supply chain management, voting systems, and more."
      case EthereumTopic =>
        "Ethereum is a decentralized, open-source blockchain with smart contract functionality. Ether (ETH) is the native cryptocurrency of the platform. It's the second-largest cryptocurrency by market capitalization after Bitcoin. Ethereum is transitioning from a proof-of-work to a proof-of-stake consensus algorithm, which should significantly reduce its energy consumption."
      case NftTopic =>
        "NFTs or Non-Fungible Tokens are unique digital assets that represent ownership of a specific item or piece of content on the blockchain. Unlike cryptocurrencies such as Bitcoin, each NFT has a distinct value and cannot be exchanged on a one-to-one basis. NFTs have gained popularity in digital art, collectibles, gaming, and more."
      case ChartTopic => "https://www.coingecko.com/chart/bitcoin/usd/large.svg"
      case PriceTopic => "Here's a visualization of Bitcoin's price over the past year:"
      case CodeTopic =>
        "\n// Smart contract example: Simple ERC-20 Token\npragma solidity ^0.8.0;\n\n"
        + "import \"@openzeppelin/contracts/token/ERC20/ERC20.sol\";\n\n"
        + "contract MyToken is ERC20 {\n    constructor(uint256 initialSupply) ERC20(\"MyToken\", \"MTK\") {\n"
        + "        _mint(msg.sender, initialSupply);\n    }\n}"
      case DefiTopic =>
        "DeFi (Decentralized Finance) refers to financial services built on blockchain technologies, primarily using smart contracts on blockchains like Ethereum. DeFi platforms allow people to lend or borrow funds, trade cryptocurrencies, get insurance, and earn interest in a decentralized manner without a central financial intermediary."
      case SmartContractTopic =>
        "Smart contracts are self-executing contracts with the terms directly written into code. They automatically execute actions when predetermined conditions are met. Smart contracts run on blockchains, making them transparent, traceable, and irreversible. They're commonly used in DeFi applications, NFT marketplaces, and decentralized applications (dApps)."
    }

    function Kind(): MessageType {
      match this
      case ChartTopic => Image
      case CodeTopic => Code
      case _ => Text
    }

    function FollowUpMessage(): Option<FollowUp> {
      match this
      case PriceTopic => Some(FollowUp("https://s3.coinmarketcap.com/generated/sparklines/web/365d/2781/1.svg", Image))
      case _ => None
    }
  }

  /** The reply table, searched in this order. */
  const SampleResponses: seq<Topic> := [
    BlockchainTopic, EthereumTopic, NftTopic, ChartTopic, PriceTopic, CodeTopic, DefiTopic, SmartContractTopic]

  /** The assistant's opening message. */
  const Greeting := Message("1", Assistant, GreetingText, Text)

  /** The position of the first entry of `table` whose trigger `text` includes. */
  function FirstMatch(table: seq<Topic>, text: string): (r: Option<int>)
    ensures r.Some? ==> 0 <= r.value < |table| && JsString.Includes(text, table[r.value].Trigger())
    ensures r.Some? ==> forall j :: 0 <= j < r.value ==> !JsString.Includes(text, table[j].Trigger())
    ensures r.None? <==> forall j :: 0 <= j < |table| ==> !JsString.Includes(text, table[j].Trigger())
  {
    if table == [] then None
    else if JsString.Includes(text, table[0].Trigger()) then Some(0)
    else
      var rest := FirstMatch(table[1..], text);
      assert forall j :: 1 <= j < |table| ==> table[1..][j - 1] == table[j];
      if rest.Some? then Some(rest.value + 1) else None
  }

  /** The table position `findSampleResponse` settles on for an input. */
  function MatchIndex(input: string): Option<int> {
    FirstMatch(SampleResponses, JsString.ToLowerCase(input))
  }

  /** `findSampleResponse`: the entry at the first matching position, if any. */
  function FindSampleResponse(input: string): (r: Option<Topic>)
    ensures r.None? <==> MatchIndex(input).None?
    ensures r.Some? ==> 0 <= MatchIndex(input).value < |SampleResponses| && r.value == SampleResponses[MatchIndex(input).value]
  {
    var i := MatchIndex(input);
    if i.Some? then Some(SampleResponses[i.value]) else None
  }

  /**
   * The entry found is the first, in table order, whose trigger occurs in
   * the lower-cased input; none is found iff no trigger occurs.
   */
  lemma FindSampleResponseFirst(input: string)
    ensures var r := FindSampleResponse(input);
      && (r.Some? ==> JsString.Includes(JsString.ToLowerCase(input), r.value.Trigger()))
      && (r.Some? ==> forall j :: 0 <= j < MatchIndex(input).value ==>
            !JsString.Includes(JsString.ToLowerCase(input), SampleResponses[j].Trigger()))
      && (r.None? <==> forall t :: t in SampleResponses ==> !JsString.Includes(JsString.ToLowerCase(input), t.Trigger()))
  {
    var r := FindSampleResponse(input);
    if r.None? {
      forall t | t in SampleResponses ensures !JsString.Includes(JsString.ToLowerCase(input), t.Trigger()) {
        var k :| 0 <= k < |SampleResponses| && SampleResponses[k] == t;
      }
    }
  }

  /** Whenever "chart" occurs, an entry up to `chart` answers, so `price` never does. */
  lemma ChartShadowsPrice(input: string)
    requires JsString.Includes(JsString.ToLowerCase(input), "chart")
    ensures FindSampleResponse(input).Some?
    ensures FindSampleResponse(input).value in SampleResponses[..4]
  {
    assert SampleResponses[3].Trigger() == "chart";
    var i := MatchIndex(input).value;
    assert i <= 3;
    assert SampleResponses[..4][i] == SampleResponses[i];
  }

  /** Whenever "code" occurs, an entry up to `code` answers, so `smart contract` never does. */
  lemma CodeShadowsSmartContract(input: string)
    requires JsString.Includes(JsString.ToLowerCase(input), "code")
    ensures FindSampleResponse(input).Some?
    ensures FindSampleResponse(input).value in SampleResponses[..6]
  {
    assert SampleResponses[5].Trigger() == "code";
    var i := MatchIndex(input).value;
    assert i <= 5;
    assert SampleResponses[..6][i] == SampleResponses[i];
  }

  /** The first match is at `k` when entry `k` matches and no earlier one does. */
  lemma FirstMatchAt(table: seq<Topic>, text: string, k: int)
    requires 0 <= k < |table| && JsString.Includes(text, table[k].Trigger())
    requires forall j :: 0 <= j < k ==> !JsString.Includes(text, table[j].Trigger())
    ensures FirstMatch(table, text) == Some(k)
  {
  }

  /** Letters "smart contract code" lacks. */
  lemma SmartContractCodeLetters(s: string)
    requires s == "smart contract code"
    ensures 'b' !in s && 'h' !in s && 'f' !in s && 'p' !in s
  {
  }

  /** None of the first five triggers occurs in "smart contract code": each has a letter the input lacks. */
  lemma SmartContractCodeMisses(s: string)
    requires s == "smart contract code"
    ensures !JsString.Includes(s, "blockchain")
    ensures !JsString.Includes(s, "ethereum")
    ensures !JsString.Includes(s, "nft")
    ensures !JsString.Includes(s, "chart")
    ensures !JsString.Includes(s, "price")
  {
    SmartContractCodeLetters(s);
    JsString.MissingCharExcludes(s, "blockchain", 0);
    JsString.MissingCharExcludes(s, "ethereum", 2);
    JsString.MissingCharExcludes(s, "nft", 1);
    JsString.MissingCharExcludes(s, "chart", 1);
    JsString.MissingCharExcludes(s, "price", 0);
  }

  /** "smart contract code" is already lower case. */
  lemma SmartContractCodeLower(s: string)
    requires s == "smart contract code"
    ensures JsString.ToLowerCase(s) == s
  {
    assert forall i :: 0 <= i < |s| ==> s[i] == ' ' || 'a' <= s[i] <= 'z';
    JsString.ToLowerCaseOfLower(s);
  }

  /** "smart contract code" contains "code" at position 15. */
  lemma SmartContractCodeHits(s: string)
    requires s == "smart contract code"
    ensures JsString.Includes(s, "code")
  {
    assert JsString.OccursAt(s, "code", 15);
    JsString.IncludesAt(s, "code", 15);
  }

  /** A lower-case input containing "code" and none of the five earlier triggers gets the code sample. */
  lemma CodeAnswers(s: string)
    requires JsString.ToLowerCase(s) == s
    requires !JsString.Includes(s, "blockchain") && !JsString.Includes(s, "ethereum")
    requires !JsString.Includes(s, "nft") && !JsString.Includes(s, "chart") && !JsString.Includes(s, "price")
    requires JsString.Includes(s, "code")
    ensures FindSampleResponse(s) == Some(CodeTopic)
  {
    FirstMatchAt(SampleResponses, s, 5);
  }

  /** "smart contract code" gets the code sample, not the smart-contract text. */
  lemma SmartContractCodeExample()
    ensures FindSampleResponse("smart contract code") == Some(CodeTopic)
  {
    var s := "smart contract code";
    SmartContractCodeLower(s);
    SmartContractCodeMisses(s);
    SmartContractCodeHits(s);
    CodeAnswers(s);
  }

  /** The assistant's replies to a message: the matched entry's reply and type or the default reply, then the follow-up if the entry has one. */
  function Replies(content: string, replyId: string, followUpId: string): (r: seq<Message>)
    ensures 1 <= |r| <= 2 && r[0].role == Assistant && r[0].id == replyId
    ensures FindSampleResponse(content).None? ==> r == [Message(replyId, Assistant, DefaultReply, Text)]
    ensures FindSampleResponse(content).Some? ==>
      var t := FindSampleResponse(content).value;
      && r[0] == Message(replyId, Assistant, TableReply(t), t.Kind())
      && (|r| == 2 <==> t.FollowUpMessage().Some?)
      && (|r| == 2 ==> r[1] == Message(followUpId, Assistant, Plain(t.FollowUpMessage().value.content), t.FollowUpMessage().value.kind))
  {
    var sample := FindSampleResponse(content);
    if sample.None? then [Message(replyId, Assistant, DefaultReply, Text)]
    else
      var first := Message(replyId, Assistant, TableReply(sample.value), sample.value.Kind());
      match sample.value.FollowUpMessage()
      case Some(f) => [first, Message(followUpId, Assistant, Plain(f.content), f.kind)]
      case None => [first]
  }

  /** A second reply comes exactly when the `price` entry answers. */
  lemma FollowUpOnlyForPrice(content: string, replyId: string, followUpId: string)
    ensures |Replies(content, replyId, followUpId)| == 2 <==> FindSampleResponse(content) == Some(PriceTopic)
  {
    var t := FindSampleResponse(content);
    if t.Some? {
      assert t.value.FollowUpMessage().Some? <==> t.value == PriceTopic;
    }
  }

  /**
   * `!input.trim() && !imageFile`: the guard of `handleSubmit`, which also
   * disables the send button: the input is all whitespace and no file is attached.
   */
  function NothingToSend(input: string, imageFile: Option<string>): (b: bool)
    ensures b <==> JsString.IsBlank(input) && imageFile.None?
  {
    JsString.TrimEmptyIff(input);
    JsString.Trim(input) == "" && imageFile.None?
  }

  /** The chat state; the attached file is represented by its name. */
  class ChatSession {
    var messages: seq<Message>
    var input: string
    var imageFile: Option<string>
    var imagePreview: Option<string>

    /** The log always starts with the greeting. */
    predicate Valid()
      reads this
    {
      |messages| >= 1 && messages[0] == Greeting
    }

    constructor ()
      ensures Valid() && messages == [Greeting]
      ensures input == "" && imageFile == None && imagePreview == None
    {
      messages := [Greeting];
      input := "";
      imageFile := None;
      imagePreview := None;
    }

    /** Typing in the input box. */
    method SetInput(text: string)
      requires Valid()
      modifies this
      ensures Valid() && input == text
      ensures messages == old(messages) && imageFile == old(imageFile) && imagePreview == old(imagePreview)
    {
      input := text;
    }

    /** `handleFileChange`, with the file reader's data URL taken as already read. */
    method AttachImage(file: string, preview: string)
      requires Valid()
      modifies this
      ensures Valid() && imageFile == Some(file) && imagePreview == Some(preview)
      ensures messages == old(messages) && input == old(input)
    {
      imageFile := Some(file);
      imagePreview := Some(preview);
    }

    /** `handleRemoveImage`. */
    method RemoveImage()
      requires Valid()
      modifies this
      ensures Valid() && imageFile == None && imagePreview == None
      ensures messages == old(messages) && input == old(input)
    {
      imageFile := None;
      imagePreview := None;
    }

    /** `generateResponse`, its delays taken as instantaneous: the reply, then the follow-up if any. */
    method GenerateResponse(userMessage: Message, replyId: string, followUpId: string)
      requires userMessage.content.Plain?
      requires Valid()
      modifies this
      ensures Valid()
      ensures messages == old(messages) + Replies(userMessage.content.text, replyId, followUpId)
      ensures input == old(input) && imageFile == old(imageFile) && imagePreview == old(imagePreview)
    {
      ghost var expected := Replies(userMessage.content.text, replyId, followUpId);
      var sampleResponse := FindSampleResponse(userMessage.content.text);
      var responseMessage := Message(replyId, Assistant, DefaultReply, Text);
      if sampleResponse.Some? {
        responseMessage := Message(replyId, Assistant, TableReply(sampleResponse.value), sampleResponse.value.Kind());
      }
      assert responseMessage == expected[0];
      messages := messages + [responseMessage];
      if sampleResponse.Some? && sampleResponse.value.FollowUpMessage().Some? {
        var followUp := sampleResponse.value.FollowUpMessage().value;
        var followUpMessage := Message(followUpId, Assistant, Plain(followUp.content), followUp.kind);
        assert expected == [responseMessage, followUpMessage];
        messages := messages + [followUpMessage];
      } else {
        assert expected == [responseMessage];
      }
    }

    /**
     * `handleSubmit`: ignored when the trimmed input is empty and no image
     * is attached; otherwise the untrimmed input is logged as the user's
     * message (an image message iff a file is attached), the form is
     * cleared and the replies follow.
     */
    method Submit(userId: string, replyId: string, followUpId: string) returns (sent: bool)
      requires Valid()
      modifies this
      ensures Valid()
      ensures sent <==> !JsString.IsBlank(old(input)) || old(imageFile).Some?
      ensures !sent ==> messages == old(messages) && input == old(input)
                        && imageFile == old(imageFile) && imagePreview == old(imagePreview)
      ensures sent ==>
        var userMessage := Message(userId, User, Plain(old(input)), if old(imageFile).Some? then Image else Text);
        && messages == old(messages) + [userMessage] + Replies(old(input), replyId, followUpId)
        && input == "" && imageFile == None && imagePreview == None
    {
      if NothingToSend(input, imageFile) {
        return false;
      }
      var userMessage := Message(userId, User, Plain(input), if imageFile.Some? then Image else Text);
      messages := messages + [userMessage];
      input := "";
      imageFile := None;
      imagePreview := None;
      GenerateResponse(userMessage, replyId, followUpId);
      sent := true;
    }
  }
}
