/** What the activity's method-call handler and share-link mailbox promise, proved
    about the specification in `CastBridge`. */
module CastBridgeProperties {
  import opened Wrappers
  import opened CastBridge

  const KnownMethods: set<string> :=
    {"getInitialLink", "initCast", "loadMedia", "play", "pause", "stop", "seek",
     "setVolume", "showRouteSelector"}

  // ---------------------------------------------------------------------------
  // Dispatch

  /** Names and branches correspond one to one: every named branch is selected by its
      name, and every name that selects a named branch is that branch's name. */
  lemma RouteInverse(k: MethodKind, name: string)
    ensures k != OtherCall ==> Route(MethodName(k)) == k
    ensures Route(name) != OtherCall ==> MethodName(Route(name)) == name
  {
  }

  /** A name selects a named branch exactly when it is one of the nine method names. */
  lemma RouteKnownIff(name: string)
    ensures Route(name) != OtherCall <==> name in KnownMethods
  {
  }

  /** Any other method name is answered "not implemented" and changes nothing. */
  lemma UnknownMethodNotImplemented(call: MethodCall, s: BridgeState, env: CastEnv)
    requires call.name !in KnownMethods
    ensures Handle(call, s, env) == Step(NotImplemented, None, s)
  {
    RouteKnownIff(call.name);
  }

  // ---------------------------------------------------------------------------
  // The mailbox

  /** Only `getInitialLink` empties the mailbox, and no method call fills it. */
  lemma OnlyInitialLinkTakesPending(call: MethodCall, s: BridgeState, env: CastEnv)
    ensures Handle(call, s, env).state.pending ==
              if Route(call.name) == GetInitialLinkCall then None else s.pending
  {
  }

  /** `getInitialLink` answers with the pending URL and empties the mailbox, so an
      immediate second call answers null. */
  lemma InitialLinkConsumedOnce(call: MethodCall, again: MethodCall, s: BridgeState,
                                env: CastEnv, env': CastEnv)
    requires Route(call.name) == GetInitialLinkCall && Route(again.name) == GetInitialLinkCall
    ensures Handle(call, s, env).reply == Success(Link(s.pending))
    ensures Handle(again, Handle(call, s, env).state, env').reply == Success(Link(None))
  {
  }

  /** Once held, the cast context is never dropped. */
  lemma CastContextKept(call: MethodCall, s: BridgeState, env: CastEnv)
    requires s.hasContext
    ensures Handle(call, s, env).state.hasContext
  {
  }

  // ---------------------------------------------------------------------------
  // initCast

  /** `initCast` is answered `true`, with the cast context held afterwards, exactly when
      `getSharedInstance` returns; otherwise it is refused with INIT_ERROR and the
      exception's message, and the state is as before. */
  lemma InitCastIff(call: MethodCall, s: BridgeState, env: CastEnv)
    requires Route(call.name) == InitCastCall
    ensures (Handle(call, s, env).reply == Success(Done)) == env.sharedInstance.Returns?
    ensures env.sharedInstance.Returns? ==>
              Handle(call, s, env) == Step(Success(Done), None, s.(hasContext := true))
    ensures env.sharedInstance.Throws? ==>
              Handle(call, s, env) == Step(Error("INIT_ERROR", env.sharedInstance.message), None, s)
  {
  }

  /** An exception escapes the handler exactly in the branches that obtain the cast
      context lazily (`loadMedia` with a URL, `play`, `pause`, `stop`, `seek`), and only
      when it is not yet held and obtaining it throws; then nothing is issued and the
      state is as before. */
  lemma ThrewOnlyFromAcquisition(call: MethodCall, s: BridgeState, env: CastEnv)
    ensures Handle(call, s, env).reply.Threw? <==>
              !Acquires(s.hasContext, env)
              && (Route(call.name) in {PlayCall, PauseCall, StopCall, SeekCall}
                  || (Route(call.name) == LoadMediaCall && call.args.url.Some?))
    ensures Handle(call, s, env).reply.Threw? ==>
              Handle(call, s, env) == Step(Threw(env.sharedInstance.message), None, s)
  {
  }

  // ---------------------------------------------------------------------------
  // loadMedia

  /** A `loadMedia` call without a URL is refused with INVALID_ARGS, issues nothing and
      changes nothing. */
  lemma LoadMediaNeedsUrl(call: MethodCall, s: BridgeState, env: CastEnv)
    requires Route(call.name) == LoadMediaCall && call.args.url.None?
    ensures Handle(call, s, env) == Step(Error("INVALID_ARGS", Some("URL is required")), None, s)
  {
  }

  /** A `loadMedia` call with a URL is answered `true` whenever the cast context can be
      held, even when nothing is loaded because no session is connected. */
  lemma LoadMediaSucceedsWithoutSession(call: MethodCall, s: BridgeState, env: CastEnv)
    requires Route(call.name) == LoadMediaCall && call.args.url.Some?
    requires Acquires(s.hasContext, env)
    ensures Handle(call, s, env).reply == Success(Done)
    ensures env.session.None? || !env.session.value.connected ==> Handle(call, s, env).command.None?
  {
  }

  /** With a connected session and a media client, `loadMedia` loads the URL with
      autoplay; the stream is live exactly when `isLive` is true (absent means false),
      and absent metadata takes its default. */
  lemma LoadMediaDescriptor(call: MethodCall, s: BridgeState, env: CastEnv)
    requires Route(call.name) == LoadMediaCall && call.args.url.Some?
    requires Acquires(s.hasContext, env)
    requires env.session.Some? && env.session.value.connected && env.session.value.hasMediaClient
    ensures Handle(call, s, env).command.Some?
    ensures Handle(call, s, env).command.value.Load?
    ensures Handle(call, s, env).command.value.request.autoplay
    ensures Handle(call, s, env).command.value.request.media.contentId == call.args.url.value
    ensures (Handle(call, s, env).command.value.request.media.streamType == LiveStream)
              == (call.args.isLive == Some(true))
    ensures call.args.title.None? ==>
              Handle(call, s, env).command.value.request.media.title == DefaultTitle
    ensures call.args.subtitle.None? ==>
              Handle(call, s, env).command.value.request.media.subtitle == DefaultSubtitle
    ensures call.args.contentType.None? ==>
              Handle(call, s, env).command.value.request.media.contentType == DefaultContentType
  {
  }

  /** The defaults in full: a bare URL gives a buffered "video/mp4" stream titled
      "Fluxo Video", subtitled "Enviado desde Fluxo", with no image. */
  lemma DescribeDefaults(url: string)
    ensures Describe(url, None, None, None, None, false)
              == MediaDescriptor(url, Buffered, "video/mp4", "Fluxo Video", "Enviado desde Fluxo", [])
  {
  }

  /** An empty image URL attaches no image, just as an absent one. */
  lemma EmptyImageIgnored(url: string, title: Option<string>, subtitle: Option<string>,
                          contentType: Option<string>, isLive: bool)
    ensures Describe(url, title, subtitle, Some(""), contentType, isLive)
              == Describe(url, title, subtitle, None, contentType, isLive)
  {
  }

  /** The metadata of a descriptor as `loadMedia` arguments. */
  function ImageArg(d: MediaDescriptor): Option<string> {
    if d.images == [] then None else Some(d.images[0])
  }

  /** Describing a descriptor's own fields gives back that descriptor: explicit values
      are never replaced by defaults.  This holds for every descriptor with at most
      one, non-empty image, which are all the descriptors `Describe` builds. */
  lemma DescribeRoundTrip(d: MediaDescriptor)
    requires |d.images| <= 1 && (d.images != [] ==> d.images[0] != "")
    ensures Describe(d.contentId, Some(d.title), Some(d.subtitle), ImageArg(d),
                     Some(d.contentType), d.streamType == LiveStream) == d
  {
    var r := Describe(d.contentId, Some(d.title), Some(d.subtitle), ImageArg(d),
                      Some(d.contentType), d.streamType == LiveStream);
    assert r.images == d.images;
  }

  // ---------------------------------------------------------------------------
  // Playback controls

  /** `play`, `pause` and `stop` are answered `true` whether or not there is a media
      client; the command is sent only when there is one.  They fail only when the
      cast context has to be obtained and obtaining it throws. */
  lemma ControlsAlwaysSucceed(call: MethodCall, s: BridgeState, env: CastEnv)
    requires Route(call.name) in {PlayCall, PauseCall, StopCall}
    ensures Acquires(s.hasContext, env) ==> Handle(call, s, env).reply == Success(Done)
    ensures !Acquires(s.hasContext, env) ==> Handle(call, s, env).reply.Threw?
    ensures Handle(call, s, env).command.Some? <==> Acquires(s.hasContext, env) && ClientAvailable(env)
    ensures Handle(call, s, env).command.Some? ==>
              Handle(call, s, env).command.value ==
                (match Route(call.name) case PlayCall => Play case PauseCall => Pause case _ => Stop)
  {
  }

  /** `seek` goes to the given position, 0 when absent; without a media client it is
      refused with NO_SESSION, otherwise it is answered `true`. */
  lemma SeekDefaultsAndSession(call: MethodCall, s: BridgeState, env: CastEnv)
    requires Route(call.name) == SeekCall && Acquires(s.hasContext, env)
    ensures ClientAvailable(env) ==>
              Handle(call, s, env).reply == Success(Done)
              && Handle(call, s, env).command ==
                   Some(SeekTo(if call.args.position.Some? then call.args.position.value as int else 0))
    ensures !ClientAvailable(env) ==>
              Handle(call, s, env).reply == Error("NO_SESSION", Some("No active media session"))
              && Handle(call, s, env).command.None?
  {
  }

  /** `setVolume` sets the given level, 0.5 when absent, on the current session when
      one is reachable; it is refused with VOLUME_ERROR only when the setter throws. */
  lemma VolumeDefault(call: MethodCall, s: BridgeState, env: CastEnv)
    requires Route(call.name) == SetVolumeCall
    ensures Handle(call, s, env).command.Some? <==> s.hasContext && env.session.Some?
    ensures Handle(call, s, env).command.Some? ==>
              Handle(call, s, env).command == Some(SetVolume(call.args.volume.GetOr(0.5)))
    ensures Handle(call, s, env).reply.Error? <==>
              s.hasContext && env.session.Some? && env.volumeSetter.Throws?
    ensures Handle(call, s, env).state == s
  {
  }

  // ---------------------------------------------------------------------------
  // The activity object

  /** A share followed by `getInitialLink` hands out the shared text, and a second
      `getInitialLink` hands out null. */
  method ShareThenFetch(activity: MainActivity, intent: Intent, call: MethodCall, env: CastEnv)
    returns (first: CallResult, second: CallResult)
    requires Route(call.name) == GetInitialLinkCall
    modifies activity
    ensures first == Success(Link(if SharedUrl(intent).Some? then SharedUrl(intent)
                                  else old(activity.pendingSharedUrl)))
    ensures second == Success(Link(None))
    ensures activity.pendingSharedUrl == None
  {
    activity.HandleIntent(intent);
    var c;
    first, c := activity.OnMethodCall(call, env);
    second, c := activity.OnMethodCall(call, env);
  }
}
