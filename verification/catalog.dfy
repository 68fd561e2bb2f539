/** The tool list the server advertises: name, description and input schema of each tool. */
module Catalog {
  import opened Wrappers
  import opened JsonValue
  import opened Tools
  import opened Requests

  /**
   * One advertised tool. The input schema is reduced to what it says about
   * keys: the declared properties, and the ones with neither a default nor
   * `.optional()`, which the schema lists as required.
   */
  datatype ToolDescriptor = ToolDescriptor(name: string, description: string, properties: set<string>, required: set<string>)

  /** The keys a request must carry. */
  function RequiredKeys(t: Tool): (r: set<string>)
    ensures r <= InputKeys(t)
  {
    match t
    case ListChannels => {}
    case PostMessage => {"channel_id", "text"}
    case ReplyToThread => {"channel_id", "text", "thread_ts"}
    case AddReaction => {"channel_id", "reaction", "timestamp"}
    case GetChannelHistory => {"channel_id"}
    case GetThreadReplies => {"channel_id", "thread_ts"}
    case GetUsers => {}
    case GetUserProfile => {"user_id"}
    case GetUserProfiles => {"user_ids"}
    case SearchMessages => {}
  }

  function Description(t: Tool): string {
    match t
    case ListChannels => "List public channels in the workspace with pagination"
    case PostMessage => "Post a new message to a Slack channel"
    case ReplyToThread => "Reply to a specific message thread in Slack"
    case AddReaction => "Add a reaction emoji to a message"
    case GetChannelHistory => "Get recent messages from a channel"
    case GetThreadReplies => "Get all replies in a message thread"
    case GetUsers => "Retrieve basic profile information of all users in the workspace"
    case GetUserProfile => "Get a user's profile information"
    case GetUserProfiles => "Get multiple users' profile information in batch"
    case SearchMessages => "Search for messages in the workspace"
  }

  function Describe(t: Tool): ToolDescriptor {
    ToolDescriptor(ToolName(t), Description(t), InputKeys(t), RequiredKeys(t))
  }

  /** The list-tools handler: every tool, in catalog order, each advertised under the name the call handler switches on. */
  function ListTools(): (tools: seq<ToolDescriptor>)
    ensures |tools| == |AllTools|
    ensures forall i | 0 <= i < |tools| :: tools[i].name == ToolName(AllTools[i])
  {
    seq(|AllTools|, i requires 0 <= i < |AllTools| => Describe(AllTools[i]))
  }
}

module CatalogFacts {
  import opened Wrappers
  import opened JsonValue
  import opened Tools
  import opened Requests
  import opened Catalog

  /** Each advertised name is one the call handler dispatches to the tool it describes. */
  lemma AdvertisedNamesDispatch(i: int)
    requires 0 <= i < |ListTools()|
    ensures ToolNamed(ListTools()[i].name) == Some(AllTools[i])
    ensures ListTools()[i].properties == InputKeys(AllTools[i])
  {
    ToolNamesRoundTrip(AllTools[i], ListTools()[i].name);
  }

  /** The advertised names are pairwise distinct, and every tool is advertised. */
  lemma CatalogIsComplete(t: Tool)
    ensures forall i, j | 0 <= i < j < |ListTools()| :: ListTools()[i].name != ListTools()[j].name
    ensures exists i | 0 <= i < |ListTools()| :: ListTools()[i].name == ToolName(t)
  {
    AllToolsComplete(t);
    var tools := ListTools();
    forall i, j | 0 <= i < j < |tools| ensures tools[i].name != tools[j].name {
      AdvertisedNamesDispatch(i);
      AdvertisedNamesDispatch(j);
    }
    var k :| 0 <= k < |AllTools| && AllTools[k] == t;
    ToolNamesRoundTrip(t, tools[k].name);
  }

  /** An empty argument object validates exactly for the tools that require no key. */
  lemma EmptyObjectIffNothingRequired(t: Tool)
    ensures ParseArgs(t, Some(JObj(map[]))).Valid? <==> RequiredKeys(t) == {}
  {
    var none := Some(JObj(map[]));
    match t
    case ListChannels => assert ParseListChannels(none).Valid?;
    case GetUsers => assert ParseGetUsers(none).Valid?;
    case SearchMessages => assert ParseSearch(none).Valid?;
    case PostMessage => assert "channel_id" in RequiredKeys(t);
    case ReplyToThread => assert "channel_id" in RequiredKeys(t);
    case AddReaction => assert "channel_id" in RequiredKeys(t);
    case GetChannelHistory => assert "channel_id" in RequiredKeys(t);
    case GetThreadReplies => assert "channel_id" in RequiredKeys(t);
    case GetUserProfile => assert "user_id" in RequiredKeys(t);
    case GetUserProfiles => assert "user_ids" in RequiredKeys(t);
  }

  /**
   * The converse: a key the schema declares but does not require can be left
   * out of a request that validates, and the request still validates.
   */
  lemma {:induction false} OptionalKeyDroppable(t: Tool, m: map<string, Json>, k: string)
    requires k in InputKeys(t) - RequiredKeys(t)
    requires ParseArgs(t, Some(JObj(m))).Valid?
    ensures ParseArgs(t, Some(JObj(m - {k}))).Valid?
  {
    var a, b := Some(JObj(m)), Some(JObj(m - {k}));
    forall key | key != k ensures Get(m - {k}, key) == Get(m, key) {
    }
    assert Get(m - {k}, k).None?;
    match t
    case ListChannels =>
      assert ParseListChannels(a).Valid?;
      assert ParseListChannels(b).Valid?;
    case GetChannelHistory =>
      assert ParseChannelHistory(a).Valid?;
      assert ParseChannelHistory(b).Valid?;
    case GetThreadReplies =>
      assert ParseThreadReplies(a).Valid?;
      assert ParseThreadReplies(b).Valid?;
    case GetUsers =>
      assert ParseGetUsers(a).Valid?;
      assert ParseGetUsers(b).Valid?;
    case SearchMessages =>
      assert ParseSearch(a).Valid?;
      SearchKeyDroppable(m, k);
  }

  lemma SearchKeyDroppable(m: map<string, Json>, k: string)
    requires SearchTextAccepted(m) && SearchOptionsAccepted(m)
    ensures SearchTextAccepted(m - {k}) && SearchOptionsAccepted(m - {k})
  {
    forall key | key != k ensures Get(m - {k}, key) == Get(m, key) {
    }
    assert Get(m - {k}, k).None?;
  }

  /** A request object missing a required key never validates. */
  lemma MissingRequiredRejected(t: Tool, m: map<string, Json>, k: string)
    requires k in RequiredKeys(t) && k !in m
    ensures ParseArgs(t, Some(JObj(m))).Invalid?
  {
  }
}
