/**
 * The decoding half of `parse_message_llm` (src/bookiebot/intents/parser.py):
 * whatever the language-model client returns is turned into the parsed
 * request, and every failure collapses into the fallback request
 * `{"intent": "fallback", "entities": {}}`. The prompt text and the network
 * call are not modelled: the client's answer is an input, and `json.loads`
 * is a partial function passed in as a parameter.
 */
module LlmParser {
  import opened Wrappers

  /** A JSON value; an object keeps its members in order. */
  datatype Json =
    | JNull
    | JBool(b: bool)
    | JNum(x: real)
    | JStr(s: string)
    | JArr(items: seq<Json>)
    | JObj(members: seq<(string, Json)>)

  /** What `await client.complete(...)` produced. */
  datatype Completion =
    | Text(s: string)                          // a `str`
    | Mapping(members: seq<(string, Json)>)    // a `dict`
    | Other                                    // any other Python value
    | Failed(error: string)                    // the call raised

  /** The request every failure turns into. */
  const Fallback := JObj([("intent", JStr("fallback")), ("entities", JObj([]))])

  /** `obj[key]` on a JSON object: the last member under that key, as the dict `json.loads` builds keeps it. */
  function Member(j: Json, key: string): (r: Option<Json>)
    ensures r.Some? ==> j.JObj? && (key, r.value) in j.members
    ensures r.None? <==> !j.JObj? || forall i :: 0 <= i < |j.members| ==> j.members[i].0 != key
  {
    if j.JObj? then MemberOf(j.members, key) else None
  }

  function MemberOf(members: seq<(string, Json)>, key: string): (r: Option<Json>)
    ensures r.Some? ==> (key, r.value) in members
    ensures r.None? <==> forall i :: 0 <= i < |members| ==> members[i].0 != key
  {
    if |members| == 0 then None
    else if members[|members| - 1].0 == key then Some(members[|members| - 1].1)
    else MemberOf(members[..|members| - 1], key)
  }

  /** A repeated key reads as its last value. */
  lemma MemberOfLast(members: seq<(string, Json)>, key: string, v: Json)
    ensures MemberOf(members + [(key, v)], key) == Some(v)
  {
  }

  /**
   * The try block of `parse_message_llm`: a string is decoded, a dict is
   * returned as it is, and anything else, a decoding error or a raising
   * call gives the fallback request. The result's shape is not checked.
   */
  function ParseReply(c: Completion, decode: string -> Option<Json>): (r: Json)
    ensures r == Fallback ||
            (c.Text? && decode(c.s) == Some(r)) ||
            (c.Mapping? && r == JObj(c.members))
    ensures c.Text? && decode(c.s).Some? ==> r == decode(c.s).value
    ensures c.Mapping? ==> r == JObj(c.members)
    ensures c.Other? || c.Failed? || (c.Text? && decode(c.s).None?) ==> r == Fallback
  {
    match c
    case Text(s) =>
      (match decode(s)
       case Some(j) => j
       case None => Fallback)
    case Mapping(members) => JObj(members)
    case Other => Fallback
    case Failed(_) => Fallback
  }

  /** The fallback request names the "fallback" intent and carries no entities. */
  lemma FallbackShape()
    ensures Member(Fallback, "intent") == Some(JStr("fallback"))
    ensures Member(Fallback, "entities") == Some(JObj([]))
    ensures Member(Fallback, "amount").None?
  {
    assert Fallback.members[0].0 == "intent";
    assert Fallback.members[1].0 == "entities";
  }

  /**
   * A reply that is not the fallback request came from the client: it is the
   * decoded text or the returned dict.
   */
  lemma NotFallbackFromClient(c: Completion, decode: string -> Option<Json>)
    requires ParseReply(c, decode) != Fallback
    ensures c.Text? || c.Mapping?
    ensures c.Text? ==> decode(c.s) == Some(ParseReply(c, decode))
  {
  }

  /** A string answer that encodes the fallback request reads back with the "fallback" intent. */
  lemma StringAnswerDecoded(s: string, decode: string -> Option<Json>)
    requires decode(s) == Some(Fallback)
    ensures Member(ParseReply(Text(s), decode), "intent") == Some(JStr("fallback"))
  {
    FallbackShape();
  }

  /** No shape check: a string that decodes to a JSON value other than an object is returned as that value. */
  lemma NoShapeCheck(s: string, decode: string -> Option<Json>, items: seq<Json>)
    requires decode(s) == Some(JArr(items))
    ensures ParseReply(Text(s), decode) == JArr(items)
    ensures Member(ParseReply(Text(s), decode), "intent").None?
  {
  }

  /** A client, told apart by identity. */
  type Client = nat

  /** `_DEFAULT_LLM_CLIENT`: the default client, created on first use. */
  class DefaultClient {
    var cached: Option<Client>

    constructor()
      ensures cached.None?
    {
      cached := None;
    }

    /** `_get_default_client()`: `made` stands for the `OpenAIClient()` it would construct. */
    method Get(made: Client) returns (c: Client)
      modifies this
      ensures c == if old(cached).Some? then old(cached).value else made
      ensures cached == Some(c)
    {
      if cached.None? {
        cached := Some(made);
      }
      c := cached.value;
    }
  }

  /** Once created, the default client is the one every later call returns. */
  method DefaultClientOnce(d: DefaultClient, first: Client, second: Client) returns (c1: Client, c2: Client)
    modifies d
    ensures c1 == c2
    ensures old(d.cached).None? ==> c1 == first
  {
    c1 := d.Get(first);
    c2 := d.Get(second);
  }

  /**
   * `parse_message_llm(message, llm_client=given)`: a given client is used
   * and the default is left alone; otherwise the default client answers.
   * `complete` is what each client answers to this message.
   */
  method ParseMessage(d: DefaultClient, given: Option<Client>, made: Client,
                      complete: Client -> Completion, decode: string -> Option<Json>)
    returns (r: Json)
    modifies d
    ensures given.Some? ==> d.cached == old(d.cached) && r == ParseReply(complete(given.value), decode)
    ensures given.None? ==> d.cached.Some? && r == ParseReply(complete(d.cached.value), decode)
    ensures given.None? && old(d.cached).Some? ==> d.cached == old(d.cached)
    ensures given.None? && old(d.cached).None? ==> d.cached == Some(made)
  {
    var client: Client;
    if given.Some? {
      client := given.value;
    } else {
      client := d.Get(made);
    }
    r := ParseReply(complete(client), decode);
  }
}
