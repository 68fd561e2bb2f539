/** The ten tools the server exposes, and the names the dispatcher switches on. */
module Tools {
  import opened Wrappers

  datatype Tool =
    | ListChannels
    | PostMessage
    | ReplyToThread
    | AddReaction
    | GetChannelHistory
    | GetThreadReplies
    | GetUsers
    | GetUserProfile
    | GetUserProfiles
    | SearchMessages

  /** Every tool, in catalog order. */
  const AllTools: seq<Tool> := [
    ListChannels, PostMessage, ReplyToThread, AddReaction, GetChannelHistory,
    GetThreadReplies, GetUsers, GetUserProfile, GetUserProfiles, SearchMessages
  ]

  function ToolName(t: Tool): string {
    match t
    case ListChannels => "slack_list_channels"
    case PostMessage => "slack_post_message"
    case ReplyToThread => "slack_reply_to_thread"
    case AddReaction => "slack_add_reaction"
    case GetChannelHistory => "slack_get_channel_history"
    case GetThreadReplies => "slack_get_thread_replies"
    case GetUsers => "slack_get_users"
    case GetUserProfile => "slack_get_user_profile"
    case GetUserProfiles => "slack_get_user_profiles"
    case SearchMessages => "slack_search_messages"
  }

  /** The `switch (request.params.name)` of the call handler; `None` is its `default` case. */
  function ToolNamed(name: string): (r: Option<Tool>)
    ensures r.Some? ==> ToolName(r.value) == name
  {
    if name == "slack_list_channels" then Some(ListChannels)
    else if name == "slack_post_message" then Some(PostMessage)
    else if name == "slack_reply_to_thread" then Some(ReplyToThread)
    else if name == "slack_add_reaction" then Some(AddReaction)
    else if name == "slack_get_channel_history" then Some(GetChannelHistory)
    else if name == "slack_get_thread_replies" then Some(GetThreadReplies)
    else if name == "slack_get_users" then Some(GetUsers)
    else if name == "slack_get_user_profile" then Some(GetUserProfile)
    else if name == "slack_get_user_profiles" then Some(GetUserProfiles)
    else if name == "slack_search_messages" then Some(SearchMessages)
    else None
  }

  /** Every tool has a case of the switch, and the switch recognises exactly the tool names. */
  lemma ToolNamesRoundTrip(t: Tool, name: string)
    ensures ToolNamed(ToolName(t)) == Some(t)
    ensures ToolNamed(name).Some? <==> exists u: Tool :: ToolName(u) == name
  {
    if ToolNamed(name).None? {
      forall u: Tool ensures ToolName(u) != name {
        assert ToolNamed(ToolName(u)).Some?;
      }
    }
  }

  /** The catalog order lists every tool exactly once. */
  lemma AllToolsComplete(t: Tool)
    ensures t in AllTools
    ensures |AllTools| == 10
    ensures forall i, j | 0 <= i < j < |AllTools| :: ToolName(AllTools[i]) != ToolName(AllTools[j])
  {
  }
}
