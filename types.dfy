/**
 * The records and enumerations shared by the views (types.ts).
 * TypeScript string-literal unions become datatypes, each with its printed tag and the parser
 * that accepts exactly the tags of the union.  Dafny reserves `type`, so the field that the
 * source calls `type` is named `kind` here.
 */
module Types {
  import opened Options

  /** `ChatSession.type`: 'direct' | 'group' | 'ai'. */
  datatype ChatKind = Direct | Group | Ai

  /** `CallLog.type`: 'audio' | 'video'. */
  datatype CallKind = Audio | Video

  /** `CallLog.direction`: 'incoming' | 'outgoing' | 'missed'. */
  datatype CallDirection = Incoming | Outgoing | Missed

  /** `Message`: every field is required except `isAi`. */
  datatype Message = Message(id: string, senderId: string, text: string, timestamp: int, isAi: Option<bool>)

  datatype ChatSession = ChatSession(
    id: string,
    name: string,
    avatar: string,
    messages: seq<Message>,
    lastMessage: string,
    timestamp: int,
    isOnline: bool,
    kind: ChatKind)

  datatype CallLog = CallLog(
    id: string,
    name: string,
    kind: CallKind,
    direction: CallDirection,
    duration: string,
    timestamp: int)

  /** The `AppView` enumeration: one value per top-level view. */
  datatype AppView = Chats | Calls | LiveAi | Dashboard | Settings | Keypad

  const AllViews: seq<AppView> := [Chats, Calls, LiveAi, Dashboard, Settings, Keypad]

  function ChatKindTag(k: ChatKind): string {
    match k
    case Direct => "direct"
    case Group => "group"
    case Ai => "ai"
  }

  /** Accepts exactly the three tags of the union. */
  function ParseChatKind(s: string): (r: Option<ChatKind>)
    ensures r.Some? <==> s == "direct" || s == "group" || s == "ai"
    ensures r.Some? ==> ChatKindTag(r.value) == s
  {
    if s == "direct" then Some(Direct)
    else if s == "group" then Some(Group)
    else if s == "ai" then Some(Ai)
    else None
  }

  lemma ChatKindRoundTrip(k: ChatKind)
    ensures ParseChatKind(ChatKindTag(k)) == Some(k)
  {
  }

  function CallKindTag(k: CallKind): string {
    match k
    case Audio => "audio"
    case Video => "video"
  }

  function ParseCallKind(s: string): (r: Option<CallKind>)
    ensures r.Some? <==> s == "audio" || s == "video"
    ensures r.Some? ==> CallKindTag(r.value) == s
  {
    if s == "audio" then Some(Audio)
    else if s == "video" then Some(Video)
    else None
  }

  lemma CallKindRoundTrip(k: CallKind)
    ensures ParseCallKind(CallKindTag(k)) == Some(k)
  {
  }

  function DirectionTag(d: CallDirection): string {
    match d
    case Incoming => "incoming"
    case Outgoing => "outgoing"
    case Missed => "missed"
  }

  function ParseDirection(s: string): (r: Option<CallDirection>)
    ensures r.Some? <==> s == "incoming" || s == "outgoing" || s == "missed"
    ensures r.Some? ==> DirectionTag(r.value) == s
  {
    if s == "incoming" then Some(Incoming)
    else if s == "outgoing" then Some(Outgoing)
    else if s == "missed" then Some(Missed)
    else None
  }

  lemma DirectionRoundTrip(d: CallDirection)
    ensures ParseDirection(DirectionTag(d)) == Some(d)
  {
  }

  /** The string value of each enumeration member (`CHATS = 'CHATS'`, ...). */
  function ViewName(v: AppView): string {
    match v
    case Chats => "CHATS"
    case Calls => "CALLS"
    case LiveAi => "LIVE_AI"
    case Dashboard => "DASHBOARD"
    case Settings => "SETTINGS"
    case Keypad => "KEYPAD"
  }

  function ParseView(s: string): (r: Option<AppView>)
    ensures r.Some? ==> ViewName(r.value) == s
    ensures r.None? ==> forall i :: 0 <= i < |AllViews| ==> ViewName(AllViews[i]) != s
  {
    if s == "CHATS" then Some(Chats)
    else if s == "CALLS" then Some(Calls)
    else if s == "LIVE_AI" then Some(LiveAi)
    else if s == "DASHBOARD" then Some(Dashboard)
    else if s == "SETTINGS" then Some(Settings)
    else if s == "KEYPAD" then Some(Keypad)
    else None
  }

  /** `AppView` has exactly six members, listed once each in `AllViews`, with six distinct names. */
  lemma SixViews()
    ensures |AllViews| == 6
    ensures forall v: AppView :: v in AllViews
    ensures forall i, j :: 0 <= i < j < |AllViews| ==> AllViews[i] != AllViews[j]
    ensures forall i, j :: 0 <= i < j < |AllViews| ==> ViewName(AllViews[i]) != ViewName(AllViews[j])
  {
    forall v: AppView ensures v in AllViews {
      match v
      case Chats => assert AllViews[0] == v;
      case Calls => assert AllViews[1] == v;
      case LiveAi => assert AllViews[2] == v;
      case Dashboard => assert AllViews[3] == v;
      case Settings => assert AllViews[4] == v;
      case Keypad => assert AllViews[5] == v;
    }
  }

  lemma ViewRoundTrip(v: AppView)
    ensures ParseView(ViewName(v)) == Some(v)
  {
  }
}
