/**
 * The `retriever` node of the agent graph: it puts the system prompt in
 * front of the conversation and, when the vector store found a similar
 * solved question, appends it as a reference example.
 */
module Retriever {
  import opened Wrappers

  datatype Role = System | Human | Assistant | ToolResult

  datatype Message = Message(role: Role, content: string)

  /** The text put in front of the similar question's page content. */
  const ReferenceIntro: string := "Here I provide a similar question and answer for reference: \n\n"

  /** `state["messages"][0]` on an empty conversation. */
  datatype RetrieverError = IndexError

  /** The similarity-search query: the content of the first message. */
  function Query(messages: seq<Message>): (r: Result<string, RetrieverError>)
    ensures r.Ok? <==> messages != []
    ensures r.Ok? ==> r.value == messages[0].content
  {
    if messages == [] then Err(IndexError) else Ok(messages[0].content)
  }

  /** The messages the node returns, given the page contents the search found (most similar first). */
  function Assemble(systemPrompt: string, messages: seq<Message>, found: seq<string>): (r: seq<Message>)
    ensures |r| == |messages| + (if found == [] then 1 else 2)
    ensures r[0] == Message(System, systemPrompt)
    ensures r[1..|messages| + 1] == messages
    ensures found != [] ==> r[|r| - 1].role == Human
    ensures found != [] ==> |r[|r| - 1].content| >= |ReferenceIntro|
    ensures found != [] ==> r[|r| - 1].content[..|ReferenceIntro|] == ReferenceIntro
    ensures found != [] ==> r[|r| - 1].content[|ReferenceIntro|..] == found[0]
  {
    var prompt := [Message(System, systemPrompt)];
    if found != [] then
      var example := Message(Human, ReferenceIntro + found[0]);
      assert (prompt + messages + [example])[1..|messages| + 1] == messages;
      prompt + messages + [example]
    else
      assert (prompt + messages)[1..] == messages;
      prompt + messages
  }

  /**
   * The `retriever` node. The vector store is the parameter `search`, from
   * query text to the page contents of its matches (at most one is asked for).
   */
  function RetrieverNode(systemPrompt: string, messages: seq<Message>, search: string -> seq<string>)
    : (r: Result<seq<Message>, RetrieverError>)
    ensures r.Err? <==> messages == []
    ensures r.Ok? ==> r.value == Assemble(systemPrompt, messages, search(messages[0].content))
  {
    match Query(messages)
    case Err(e) => Err(e)
    case Ok(q) => Ok(Assemble(systemPrompt, messages, search(q)))
  }

  /** Only the first search result is used: any further matches change nothing. */
  lemma OnlyFirstMatchUsed(systemPrompt: string, messages: seq<Message>, found: seq<string>)
    requires found != []
    ensures Assemble(systemPrompt, messages, found) == Assemble(systemPrompt, messages, found[..1])
  {
  }

  /** The conversation with the example message taken away is what the node returns when nothing is found. */
  lemma ExampleOnlyAddition(systemPrompt: string, messages: seq<Message>, found: seq<string>)
    requires found != []
    ensures Assemble(systemPrompt, messages, found)[..|messages| + 1] == Assemble(systemPrompt, messages, [])
  {
    var r, e := Assemble(systemPrompt, messages, found), Assemble(systemPrompt, messages, []);
    assert r[..|messages| + 1] == [r[0]] + r[1..|messages| + 1];
    assert e == [e[0]] + e[1..];
  }
}
