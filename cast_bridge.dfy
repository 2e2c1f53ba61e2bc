/** The Android activity of the Fluxo app, as far as it decides anything: it keeps a
    one-slot mailbox for a URL shared into the app, answers the method calls of the
    app's `com.fluxo.fluxo/cast` channel (argument defaults, argument errors, which
    receiver command to issue), and builds the media descriptor it loads on the cast
    receiver.  The cast SDK is not modelled: what its calls would return or throw is
    the `CastEnv` parameter, and the commands that would be sent to it are results. */
module CastBridge {
  import opened Wrappers

  const ActionSend: string := "android.intent.action.SEND"
  const PlainText: string := "text/plain"
  const DefaultTitle: string := "Fluxo Video"
  const DefaultSubtitle: string := "Enviado desde Fluxo"
  const DefaultContentType: string := "video/mp4"
  const DefaultVolume: real := 0.5
  const DefaultPosition: int := 0

  // ---------------------------------------------------------------------------
  // Shared links

  /** The parts of an Android intent that the activity reads; `text` is the
      `EXTRA_TEXT` string extra. */
  datatype Intent = Intent(action: Option<string>, mimeType: Option<string>, text: Option<string>)

  /** The URL a delivered intent leaves in the mailbox, if any: the text of a
      plain-text share. */
  function SharedUrl(intent: Intent): (url: Option<string>)
    ensures url.Some? <==> intent.action == Some(ActionSend) && intent.mimeType == Some(PlainText)
                           && intent.text.Some?
    ensures url.Some? ==> url == intent.text
  {
    if intent.action == Some(ActionSend) && intent.mimeType == Some(PlainText) then intent.text
    else None
  }

  // ---------------------------------------------------------------------------
  // Method calls

  /** A Kotlin `Int`. */
  newtype Int32 = x: int | -0x8000_0000 <= x < 0x8000_0000

  /** The arguments a call may carry, each `None` when absent or null. */
  datatype Args = Args(
    url: Option<string>,
    title: Option<string>,
    subtitle: Option<string>,
    imageUrl: Option<string>,
    contentType: Option<string>,
    isLive: Option<bool>,
    position: Option<Int32>,
    volume: Option<real>)

  datatype MethodCall = MethodCall(name: string, args: Args)

  /** The branches of the `when` over the method name. */
  datatype MethodKind =
    | GetInitialLinkCall | InitCastCall | LoadMediaCall | PlayCall | PauseCall | StopCall
    | SeekCall | SetVolumeCall | ShowRouteSelectorCall | OtherCall

  /** The branch a method name selects: a named branch only for its own name. */
  function Route(name: string): (k: MethodKind)
    ensures k != OtherCall ==> MethodName(k) == name
  {
    if name == "getInitialLink" then GetInitialLinkCall
    else if name == "initCast" then InitCastCall
    else if name == "loadMedia" then LoadMediaCall
    else if name == "play" then PlayCall
    else if name == "pause" then PauseCall
    else if name == "stop" then StopCall
    else if name == "seek" then SeekCall
    else if name == "setVolume" then SetVolumeCall
    else if name == "showRouteSelector" then ShowRouteSelectorCall
    else OtherCall
  }

  /** The method name of each named branch. */
  function MethodName(k: MethodKind): string
    requires k != OtherCall
  {
    match k
    case GetInitialLinkCall => "getInitialLink"
    case InitCastCall => "initCast"
    case LoadMediaCall => "loadMedia"
    case PlayCall => "play"
    case PauseCall => "pause"
    case StopCall => "stop"
    case SeekCall => "seek"
    case SetVolumeCall => "setVolume"
    case ShowRouteSelectorCall => "showRouteSelector"
  }

  // ---------------------------------------------------------------------------
  // Media descriptors and receiver commands

  datatype StreamType = Buffered | LiveStream

  /** The `MediaInfo` handed to the receiver, with its metadata flattened in;
      `images` holds the image URLs attached to the metadata. */
  datatype MediaDescriptor = MediaDescriptor(
    contentId: string,
    streamType: StreamType,
    contentType: string,
    title: string,
    subtitle: string,
    images: seq<string>)

  /** A load together with its options. */
  datatype LoadRequest = LoadRequest(media: MediaDescriptor, autoplay: bool)

  /** A call into the receiver's media client or session, with its arguments. */
  datatype CastCommand =
    | Load(request: LoadRequest)
    | Play
    | Pause
    | Stop
    | SeekTo(position: int)
    | SetVolume(level: real)

  /** The descriptor `loadMedia` builds: explicit metadata is kept, absent metadata
      takes its default, the stream is live exactly when asked, and an image is
      attached only for a non-empty image URL. */
  function Describe(url: string, title: Option<string>, subtitle: Option<string>,
                    imageUrl: Option<string>, contentType: Option<string>, isLive: bool)
    : (d: MediaDescriptor)
    ensures d.contentId == url
    ensures d.streamType == LiveStream <==> isLive
    ensures title.Some? ==> d.title == title.value
    ensures title.None? ==> d.title == DefaultTitle
    ensures subtitle.Some? ==> d.subtitle == subtitle.value
    ensures subtitle.None? ==> d.subtitle == DefaultSubtitle
    ensures contentType.Some? ==> d.contentType == contentType.value
    ensures contentType.None? ==> d.contentType == DefaultContentType
    ensures d.images != [] <==> imageUrl.Some? && imageUrl.value != ""
    ensures d.images != [] ==> d.images == [imageUrl.value]
  {
    var images := if imageUrl.Some? && imageUrl.value != "" then [imageUrl.value] else [];
    MediaDescriptor(url, if isLive then LiveStream else Buffered,
                    contentType.GetOr(DefaultContentType),
                    title.GetOr(DefaultTitle), subtitle.GetOr(DefaultSubtitle), images)
  }

  // ---------------------------------------------------------------------------
  // The cast SDK, as inputs

  /** How a call into the SDK ends: it returns, or throws with a nullable message. */
  datatype Outcome = Returns | Throws(message: Option<string>)

  /** The current cast session, when there is one. */
  datatype SessionView = SessionView(connected: bool, hasMediaClient: bool)

  /** What the SDK would do during one method call: how `getSharedInstance` ends,
      the current session seen through the cast context, and how setting the volume
      ends. */
  datatype CastEnv = CastEnv(sharedInstance: Outcome, session: Option<SessionView>, volumeSetter: Outcome)

  /** Whether the cast context is held after the lazy `if (castContext == null)`
      initialisation: it was held already, or obtaining it returned. */
  predicate Acquires(hasContext: bool, env: CastEnv) {
    hasContext || env.sharedInstance.Returns?
  }

  /** Whether the current session has a remote media client. */
  predicate ClientAvailable(env: CastEnv) {
    env.session.Some? && env.session.value.hasMediaClient
  }

  /** The load `loadMedia` issues once it holds the cast context: none without a
      connected session or without a media client, otherwise the built descriptor with
      autoplay on. */
  function LoadCommand(url: string, title: Option<string>, subtitle: Option<string>,
                       imageUrl: Option<string>, contentType: Option<string>, isLive: bool,
                       session: Option<SessionView>)
    : (c: Option<CastCommand>)
    ensures c.Some? <==> session.Some? && session.value.connected && session.value.hasMediaClient
    ensures c.Some? ==> c.value.Load? && c.value.request.autoplay
                        && c.value.request.media == Describe(url, title, subtitle, imageUrl, contentType, isLive)
  {
    if session.None? || !session.value.connected then None
    else if session.value.hasMediaClient then
      Some(Load(LoadRequest(Describe(url, title, subtitle, imageUrl, contentType, isLive), true)))
    else None
  }

  // ---------------------------------------------------------------------------
  // Replies

  /** The value of a successful reply: `true`, or the pending shared link. */
  datatype ReplyValue = Done | Link(url: Option<string>)

  /** How a method call is answered; `Threw` is an exception escaping the handler
      before it replied. */
  datatype CallResult =
    | Success(value: ReplyValue)
    | Error(code: string, message: Option<string>)
    | NotImplemented
    | Threw(message: Option<string>)

  /** The activity's own state: the mailbox and whether the cast context is held. */
  datatype BridgeState = BridgeState(pending: Option<string>, hasContext: bool)

  /** The effect of one method call: the reply, the receiver command issued, if any,
      and the new state. */
  datatype Step = Step(reply: CallResult, command: Option<CastCommand>, state: BridgeState)

  /** The `setMethodCallHandler` callback, as a function of the call, the state before
      it and what the SDK does. */
  function Handle(call: MethodCall, s: BridgeState, env: CastEnv): (r: Step)
    ensures r.reply.NotImplemented? <==> Route(call.name) == OtherCall
    ensures r.command.Some? ==> r.state.hasContext
    ensures r.state.pending == s.pending || r.state.pending.None?
    ensures r.reply.Threw? ==> r.command.None? && r.state == s
  {
    var a := call.args;
    var held := s.(hasContext := true);
    match Route(call.name)
    case GetInitialLinkCall =>
      Step(Success(Link(s.pending)), None, s.(pending := None))
    case InitCastCall =>
      if env.sharedInstance.Returns? then Step(Success(Done), None, held)
      else Step(Error("INIT_ERROR", env.sharedInstance.message), None, s)
    case LoadMediaCall =>
      if a.url.None? then Step(Error("INVALID_ARGS", Some("URL is required")), None, s)
      else if !Acquires(s.hasContext, env) then Step(Threw(env.sharedInstance.message), None, s)
      else
        Step(Success(Done),
             LoadCommand(a.url.value, a.title, a.subtitle, a.imageUrl, a.contentType,
                         a.isLive.GetOr(false), env.session),
             held)
    case PlayCall => ClientCommand(Play, s, env)
    case PauseCall => ClientCommand(Pause, s, env)
    case StopCall => ClientCommand(Stop, s, env)
    case SeekCall =>
      var position := if a.position.Some? then a.position.value as int else DefaultPosition;
      if !Acquires(s.hasContext, env) then Step(Threw(env.sharedInstance.message), None, s)
      else if ClientAvailable(env) then Step(Success(Done), Some(SeekTo(position)), held)
      else Step(Error("NO_SESSION", Some("No active media session")), None, held)
    case SetVolumeCall =>
      var level := a.volume.GetOr(DefaultVolume);
      if !s.hasContext || env.session.None? then Step(Success(Done), None, s)
      else if env.volumeSetter.Returns? then Step(Success(Done), Some(SetVolume(level)), s)
      else Step(Error("VOLUME_ERROR", env.volumeSetter.message), Some(SetVolume(level)), s)
    case ShowRouteSelectorCall =>
      Step(Success(Done), None, s)
    case OtherCall =>
      Step(NotImplemented, None, s)
  }

  /** `getRemoteMediaClient()?.play()` and its siblings, followed by `success(true)`. */
  function ClientCommand(c: CastCommand, s: BridgeState, env: CastEnv): (r: Step)
    ensures r.reply.Threw? <==> !Acquires(s.hasContext, env)
    ensures !r.reply.Threw? ==> r.reply == Success(Done) && r.state.hasContext
    ensures r.command.Some? <==> Acquires(s.hasContext, env) && ClientAvailable(env)
    ensures r.command.Some? ==> r.command.value == c
    ensures r.state.pending == s.pending
  {
    if !Acquires(s.hasContext, env) then Step(Threw(env.sharedInstance.message), None, s)
    else Step(Success(Done), if ClientAvailable(env) then Some(c) else None, s.(hasContext := true))
  }

  // ---------------------------------------------------------------------------
  // The activity

  class MainActivity {
    /** The shared URL waiting for the app to ask for it. */
    var pendingSharedUrl: Option<string>
    /** Whether `castContext` is non-null. */
    var hasCastContext: bool

    function State(): BridgeState
      reads this
    {
      BridgeState(pendingSharedUrl, hasCastContext)
    }

    /** `onCreate`: the launching intent is handled, then the cast context is
        obtained; a failure to obtain it is caught and leaves it null. */
    constructor OnCreate(intent: Intent, sharedInstance: Outcome)
      ensures pendingSharedUrl == SharedUrl(intent)
      ensures hasCastContext == sharedInstance.Returns?
    {
      pendingSharedUrl := None;
      hasCastContext := false;
      new;
      HandleIntent(intent);
      if sharedInstance.Returns? {
        hasCastContext := true;
      }
    }

    /** `handleIntent`: a plain-text share overwrites the mailbox; any other intent
        leaves it as it was. */
    method HandleIntent(intent: Intent)
      modifies this
      ensures SharedUrl(intent).Some? ==> pendingSharedUrl == SharedUrl(intent)
      ensures SharedUrl(intent).None? ==> pendingSharedUrl == old(pendingSharedUrl)
      ensures hasCastContext == old(hasCastContext)
    {
      if intent.action == Some(ActionSend) && intent.mimeType == Some(PlainText) {
        if intent.text.Some? {
          pendingSharedUrl := intent.text;
        }
      }
    }

    /** The `getInitialLink` branch: the pending URL is handed out and the mailbox emptied. */
    method TakeInitialLink() returns (link: Option<string>)
      modifies this
      ensures link == old(pendingSharedUrl)
      ensures pendingSharedUrl == None && hasCastContext == old(hasCastContext)
    {
      link := pendingSharedUrl;
      pendingSharedUrl := None;
    }

    /** `if (castContext == null) castContext = CastContext.getSharedInstance(this)`;
        `ok` is false when obtaining it threw. */
    method AcquireCastContext(sharedInstance: Outcome) returns (ok: bool)
      modifies this
      ensures ok == (old(hasCastContext) || sharedInstance.Returns?)
      ensures hasCastContext == ok
      ensures pendingSharedUrl == old(pendingSharedUrl)
    {
      if !hasCastContext && sharedInstance.Returns? {
        hasCastContext := true;
      }
      ok := hasCastContext;
    }

    /** `loadMedia`: obtains the cast context if needed (`threw` when that failed),
        returns silently without a connected session, and otherwise loads the built
        descriptor through the session's media client, if it has one. */
    method LoadMedia(url: string, title: Option<string>, subtitle: Option<string>,
                     imageUrl: Option<string>, contentType: Option<string>, isLive: bool,
                     env: CastEnv)
      returns (threw: bool, command: Option<CastCommand>)
      modifies this
      ensures threw == !Acquires(old(hasCastContext), env)
      ensures hasCastContext == !threw
      ensures pendingSharedUrl == old(pendingSharedUrl)
      ensures command == if threw then None
                         else LoadCommand(url, title, subtitle, imageUrl, contentType, isLive, env.session)
    {
      var ok := AcquireCastContext(env.sharedInstance);
      if !ok {
        return true, None;
      }
      var session := env.session;
      if session.None? || !session.value.connected {
        return false, None;
      }
      var media := Describe(url, title, subtitle, imageUrl, contentType, isLive);
      command := if session.value.hasMediaClient then Some(Load(LoadRequest(media, true))) else None;
      threw := false;
    }

    /** `getRemoteMediaClient()?.<c>()`: obtains the cast context if needed (`threw`
        when that failed) and issues `c` when the current session has a media client. */
    method SendToClient(c: CastCommand, env: CastEnv) returns (threw: bool, command: Option<CastCommand>)
      modifies this
      ensures threw == !Acquires(old(hasCastContext), env)
      ensures hasCastContext == !threw
      ensures pendingSharedUrl == old(pendingSharedUrl)
      ensures command == if !threw && ClientAvailable(env) then Some(c) else None
    {
      var ok := AcquireCastContext(env.sharedInstance);
      if !ok {
        return true, None;
      }
      threw := false;
      command := if ClientAvailable(env) then Some(c) else None;
    }

    /** The method-call handler: one branch per method name, each answering the call
        exactly once (unless an exception escapes) and updating the activity's state as
        `Handle` describes. */
    method OnMethodCall(call: MethodCall, env: CastEnv) returns (result: CallResult, command: Option<CastCommand>)
      modifies this
      ensures Step(result, command, State()) == Handle(call, old(State()), env)
    {
      var a := call.args;
      command := None;
      match Route(call.name) {
        case GetInitialLinkCall =>
          var link := TakeInitialLink();
          result := Success(Link(link));
        case InitCastCall =>
          if env.sharedInstance.Returns? {
            hasCastContext := true;
            result := Success(Done);
          } else {
            result := Error("INIT_ERROR", env.sharedInstance.message);
          }
        case LoadMediaCall =>
          var isLive := a.isLive.GetOr(false);
          if a.url.Some? {
            var threw;
            threw, command := LoadMedia(a.url.value, a.title, a.subtitle, a.imageUrl,
                                        a.contentType, isLive, env);
            result := if threw then Threw(env.sharedInstance.message) else Success(Done);
          } else {
            result := Error("INVALID_ARGS", Some("URL is required"));
          }
        case PlayCall =>
          var threw;
          threw, command := SendToClient(Play, env);
          result := if threw then Threw(env.sharedInstance.message) else Success(Done);
        case PauseCall =>
          var threw;
          threw, command := SendToClient(Pause, env);
          result := if threw then Threw(env.sharedInstance.message) else Success(Done);
        case StopCall =>
          var threw;
          threw, command := SendToClient(Stop, env);
          result := if threw then Threw(env.sharedInstance.message) else Success(Done);
        case SeekCall =>
          var position := if a.position.Some? then a.position.value as int else DefaultPosition;
          var ok := AcquireCastContext(env.sharedInstance);
          if !ok {
            result := Threw(env.sharedInstance.message);
          } else if ClientAvailable(env) {
            command := Some(SeekTo(position));
            result := Success(Done);
          } else {
            result := Error("NO_SESSION", Some("No active media session"));
          }
        case SetVolumeCall =>
          var level := a.volume.GetOr(DefaultVolume);
          if hasCastContext && env.session.Some? {
            command := Some(SetVolume(level));
            result := if env.volumeSetter.Returns? then Success(Done)
                      else Error("VOLUME_ERROR", env.volumeSetter.message);
          } else {
            result := Success(Done);
          }
        case ShowRouteSelectorCall =>
          result := Success(Done);
        case OtherCall =>
          result := NotImplemented;
      }
    }
  }
}
