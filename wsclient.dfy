/** The WebSocket client plugin: an options record merged over defaults, the connection URL
    and routing info fixed when a connection is opened, a status flag, one replaceable notify
    target, and the four socket callbacks that emit notifications, two of which also move
    the status.
    The socket itself is an abstract record; what it is asked to do is recorded. */
module WsClient {
  import opened Outcomes
  import opened Decimal

  // ---------------------------------------------------------------------------------------
  // Status flags

  /** `STATUS`: the states of the connection. */
  datatype SocketStatus = NotInitialized | Connecting | IsOpen | Closing | Closed

  /** The number each status is stored and reported as. */
  function Code(s: SocketStatus): (c: int)
    ensures -1 <= c <= 3
  {
    match s
    case NotInitialized => -1
    case Connecting => 0
    case IsOpen => 1
    case Closing => 2
    case Closed => 3
  }

  /** The status a number stands for, if any. */
  function FromCode(c: int): (r: Option<SocketStatus>)
    ensures r.Some? <==> -1 <= c <= 3
  {
    if c == -1 then Some(NotInitialized)
    else if c == 0 then Some(Connecting)
    else if c == 1 then Some(IsOpen)
    else if c == 2 then Some(Closing)
    else if c == 3 then Some(Closed)
    else None
  }

  /** The table is a bijection between the five statuses and -1..3. */
  lemma CodeRoundTrip(s: SocketStatus, c: int)
    ensures FromCode(Code(s)) == Some(s)
    ensures FromCode(c).Some? ==> Code(FromCode(c).value) == c
  {
  }

  // ---------------------------------------------------------------------------------------
  // Options

  /** The connection options. `port` is None where it is null or undefined. */
  datatype Options = Options(host: string, port: Option<nat>, secure: bool, protocol: seq<string>)

  /** `defaultOptions`. */
  const DefaultOptions := Options("localhost", Some(8080), false, [])

  /** An object spread over options: each field it has (even one set to null or undefined,
      hence the nested Option for `port`) replaces that option. */
  datatype Overrides = Overrides(host: Option<string>, port: Option<Option<nat>>,
                                 secure: Option<bool>, protocol: Option<seq<string>>)

  /** An absent argument, `{}` or `undefined`, spreads no field. */
  const NoOverrides := Overrides(None, None, None, None)

  function Pick<T>(o: Option<T>, d: T): T {
    if o.Some? then o.value else d
  }

  /** `{ ...base, ...o }`. */
  function Merge(base: Options, o: Overrides): (r: Options)
    ensures o == NoOverrides ==> r == base
  {
    Options(Pick(o.host, base.host), Pick(o.port, base.port),
            Pick(o.secure, base.secure), Pick(o.protocol, base.protocol))
  }

  /** `{ ...a, ...b }` over override objects: the later one's fields win. */
  function Combine(a: Overrides, b: Overrides): Overrides {
    Overrides(if b.host.Some? then b.host else a.host,
              if b.port.Some? then b.port else a.port,
              if b.secure.Some? then b.secure else a.secure,
              if b.protocol.Some? then b.protocol else a.protocol)
  }

  /** Spreading two objects one after the other is spreading their combination once;
      spreading nothing changes nothing, and spreading the same object twice is spreading
      it once. */
  lemma MergeLaws(base: Options, a: Overrides, b: Overrides)
    ensures Merge(Merge(base, a), b) == Merge(base, Combine(a, b))
    ensures Merge(base, NoOverrides) == base
    ensures Merge(Merge(base, a), a) == Merge(base, a)
  {
  }

  /** A field the override object has is taken from it; any other is kept. */
  lemma MergeFields(base: Options, o: Overrides)
    ensures o.port.Some? ==> Merge(base, o).port == o.port.value
    ensures o.port.None? ==> Merge(base, o).port == base.port
    ensures Merge(base, o).host == (if o.host.Some? then o.host.value else base.host)
    ensures Merge(base, o).secure == (if o.secure.Some? then o.secure.value else base.secure)
    ensures Merge(base, o).protocol == (if o.protocol.Some? then o.protocol.value else base.protocol)
  {
  }

  // ---------------------------------------------------------------------------------------
  // URL and routing info

  /** `secure ? 'wss' : 'ws'`. */
  function Scheme(secure: bool): (s: string)
    ensures s == "wss" <==> secure
    ensures s == "ws" <==> !secure
  {
    if secure then "wss" else "ws"
  }

  /** The authority part: the host, then `:port` when the port is not null. */
  function Authority(host: string, port: Option<nat>): (a: string)
    ensures host <= a
    ensures port.None? <==> a == host
  {
    if port.Some? then host + ":" + DecimalString(port.value) else host
  }

  /** The URL the socket is created with: `scheme://host:port`, or `scheme://host` when
      the port is null. */
  function Url(o: Options): (u: string)
    ensures "wss://" <= u <==> o.secure
    ensures "ws://" <= u <==> !o.secure
  {
    var u := Scheme(o.secure) + "://" + Authority(o.host, o.port);
    assert o.secure ==> u[..6] == "wss://" && u[2] == 's';
    assert !o.secure ==> u[..5] == "ws://" && u[2] == ':';
    assert "wss://"[2] == 's' && "ws://"[2] == ':';
    u
  }

  /** What a URL names: its security, its host and its port. */
  datatype Endpoint = Endpoint(secure: bool, host: string, port: Option<nat>)

  /** The index of the first ':' in s. */
  function ColonAt(s: string): (r: Option<nat>)
    ensures r.None? <==> ':' !in s
    ensures r.Some? ==> r.value < |s| && s[r.value] == ':' && ':' !in s[..r.value]
  {
    if |s| == 0 then None
    else if s[0] == ':' then Some(0)
    else match ColonAt(s[1..])
      case None => None
      case Some(i) =>
        assert s[..i + 1] == [s[0]] + s[1..][..i];
        Some(i + 1)
  }

  /** Read an authority back: the host is what precedes the first ':', the port the
      numeral after it. */
  function ParseAuthority(secure: bool, a: string): Option<Endpoint> {
    match ColonAt(a)
    case None => Some(Endpoint(secure, a, None))
    case Some(i) =>
      var digits := a[i + 1..];
      if digits != [] && Numeral(digits) then Some(Endpoint(secure, a[..i], Some(ParseDecimal(digits))))
      else None
  }

  /** Read a URL of the two schemes back. */
  function ParseUrl(u: string): Option<Endpoint> {
    if "wss://" <= u then ParseAuthority(true, u[6..])
    else if "ws://" <= u then ParseAuthority(false, u[5..])
    else None
  }

  /** The first ':' of `host + ":" + rest` is the one after the host. */
  lemma ColonAfterHost(host: string, rest: string)
    requires ':' !in host
    ensures ColonAt(host + ":" + rest) == Some(|host|)
  {
    var a := host + ":" + rest;
    assert a[|host|] == ':';
    assert a[..|host|] == host;
  }

  /** The URL built at `open` names exactly the options' security, host and port, for
      every host without a ':'. */
  lemma UrlRoundTrip(o: Options)
    requires ':' !in o.host
    ensures ParseUrl(Url(o)) == Some(Endpoint(o.secure, o.host, o.port))
  {
    UrlSchemeReads(o);
    AuthorityRoundTrip(o.secure, o.host, o.port);
  }

  /** Reading a URL strips exactly the scheme and "://" that `open` put in front. */
  lemma UrlSchemeReads(o: Options)
    ensures ParseUrl(Url(o)) == ParseAuthority(o.secure, Authority(o.host, o.port))
  {
    var u := Url(o);
    var a := Authority(o.host, o.port);
    assert u == Scheme(o.secure) + "://" + a;
    if o.secure {
      assert u[6..] == a;
    } else {
      assert u[5..] == a;
    }
  }

  /** An authority reads back as the host and port it was written from. */
  lemma AuthorityRoundTrip(secure: bool, host: string, port: Option<nat>)
    requires ':' !in host
    ensures ParseAuthority(secure, Authority(host, port)) == Some(Endpoint(secure, host, port))
  {
    var a := Authority(host, port);
    if port.Some? {
      var d := DecimalString(port.value);
      ColonAfterHost(host, d);
      assert a[|host| + 1..] == d;
      assert a[..|host|] == host;
      ParseDecimalString(port.value);
    }
  }

  /** The `rinfo` handed to every message of one connection. */
  datatype RoutingInfo = RoutingInfo(address: string, family: string, port: Option<nat>, size: nat)

  /** `rinfo` as `open` builds it: the host, the scheme as family, the port, size 0. */
  function RoutingInfoOf(o: Options): (r: RoutingInfo)
    ensures r.address == o.host && r.port == o.port && r.size == 0
    ensures r.family == (if o.secure then "wss" else "ws")
  {
    RoutingInfo(o.host, Scheme(o.secure), o.port, 0)
  }

  // ---------------------------------------------------------------------------------------
  // The plugin's state and what each call or socket callback does to it

  /** The socket: created with a URL and protocol; `rinfo` is what its handlers captured. */
  datatype Connection = Connection(url: string, protocol: seq<string>, rinfo: RoutingInfo)

  /** The notify target: the initial no-op, or a function registered by the host. */
  datatype Sink = NoOp | Target(id: nat)

  /** The arguments of one `notify` call. */
  datatype Notification =
    | Lifecycle(name: string)                          // notify('open'), notify('close')
    | Failure(error: nat)                              // notify('error', error)
    | Message(data: seq<bv8>, rinfo: RoutingInfo)      // notify(message.data, rinfo)

  /** One `notify` call and the target it went to. */
  datatype Emission = Emission(sink: Sink, note: Notification)

  /** The plugin's fields, plus the sockets that `close()` was called on, in order. */
  datatype Plugin = Plugin(options: Options, socket: Option<Connection>, status: SocketStatus,
                           notify: Sink, log: seq<Emission>, closeCalls: seq<Connection>)

  /** What can happen to a plugin: a call of one of its methods, or one of the current
      socket's callbacks firing. */
  datatype Input =
    | RegisterNotify(fn: Sink)
    | Open(custom: Overrides)
    | Close
    | SocketOpened
    | SocketClosed
    | SocketErrored(error: nat)
    | SocketMessage(data: seq<bv8>)

  /** A socket callback, as opposed to a call of the plugin's own methods. */
  predicate IsSocketEvent(i: Input) {
    i.SocketOpened? || i.SocketClosed? || i.SocketErrored? || i.SocketMessage?
  }

  /** `close()` dereferences the socket, and only a socket that exists fires callbacks. */
  predicate Enabled(p: Plugin, i: Input) {
    (i.Close? || IsSocketEvent(i)) ==> p.socket.Some?
  }

  /** The constructor: defaults overridden by the argument, no socket, not initialised,
      the no-op notify. */
  function Initial(custom: Overrides): (p: Plugin)
    ensures p.options == Merge(DefaultOptions, custom) && p.socket.None? && p.status == NotInitialized
    ensures Code(p.status) == -1 && p.notify == NoOp && p.log == []
  {
    Plugin(Merge(DefaultOptions, custom), None, NotInitialized, NoOp, [], [])
  }

  /** The socket `open` creates from the merged options. */
  function Connect(o: Options): (c: Connection)
    ensures c.url == Url(o) && c.protocol == o.protocol && c.rinfo == RoutingInfoOf(o)
  {
    Connection(Url(o), o.protocol, RoutingInfoOf(o))
  }

  /** `close`: the status becomes Closing and the socket is asked to close. */
  function CloseSocket(p: Plugin): (q: Plugin)
    requires p.socket.Some?
    ensures q.status == Closing && q.closeCalls == p.closeCalls + [p.socket.value]
    ensures q.socket == p.socket && q.options == p.options && q.notify == p.notify && q.log == p.log
  {
    p.(status := Closing, closeCalls := p.closeCalls + [p.socket.value])
  }

  /** One step: a method call or a socket callback. The callbacks act on the current socket
      and none of them looks at the status it finds. */
  function Next(p: Plugin, i: Input): (q: Plugin)
    requires Enabled(p, i)
    ensures q.options == p.options
    ensures q.socket.Some? <==> p.socket.Some? || i.Open?
    ensures |q.log| == |p.log| + (if IsSocketEvent(i) then 1 else 0) && q.log[..|p.log|] == p.log
    ensures IsSocketEvent(i) ==> q.log[|p.log|].sink == p.notify
  {
    match i
    case RegisterNotify(fn) => p.(notify := fn)
    case Open(custom) =>
      var o := Merge(p.options, custom);
      var q := if p.socket.Some? then CloseSocket(p) else p;
      q.(socket := Some(Connect(o)), status := Connecting)
    case Close => CloseSocket(p)
    case SocketOpened => p.(status := IsOpen, log := p.log + [Emission(p.notify, Lifecycle("open"))])
    case SocketClosed => p.(status := Closed, log := p.log + [Emission(p.notify, Lifecycle("close"))])
    case SocketErrored(e) => p.(log := p.log + [Emission(p.notify, Failure(e))])
    case SocketMessage(d) => p.(log := p.log + [Emission(p.notify, Message(d, p.socket.value.rinfo))])
  }

  /** A sequence of inputs; None where a `close()` or a callback finds no socket. */
  function Run(p: Plugin, inputs: seq<Input>): (r: Option<Plugin>)
    ensures r.Some? ==> |r.value.log| >= |p.log| && r.value.log[..|p.log|] == p.log
    ensures r.Some? ==> r.value.options == p.options
    decreases |inputs|
  {
    if inputs == [] then Some(p)
    else if !Enabled(p, inputs[0]) then None
    else Run(Next(p, inputs[0]), inputs[1..])
  }

  /** Running two sequences one after the other is running their concatenation. */
  lemma {:induction false} RunConcat(p: Plugin, a: seq<Input>, b: seq<Input>)
    ensures Run(p, a + b) == if Run(p, a).Some? then Run(Run(p, a).value, b) else None
    decreases |a|
  {
    if a == [] {
      assert a + b == b;
    } else {
      assert (a + b)[0] == a[0] && (a + b)[1..] == a[1..] + b;
      if Enabled(p, a[0]) {
        RunConcat(Next(p, a[0]), a[1..], b);
      }
    }
  }

  /** `open` merges its argument for this connection only, creates the socket from the
      merge, and is Connecting; an existing socket was asked to close first. */
  lemma OpenEffect(p: Plugin, custom: Overrides)
    ensures var q := Next(p, Open(custom));
      && q.options == p.options
      && q.socket == Some(Connect(Merge(p.options, custom)))
      && q.status == Connecting && Code(q.status) == 0
      && q.closeCalls == (if p.socket.Some? then p.closeCalls + [p.socket.value] else p.closeCalls)
      && q.notify == p.notify && q.log == p.log
  {
  }

  /** The open and close callbacks set their status whatever the status was; the error
      callback leaves the status alone. Each emits exactly one notification to the current
      target and changes neither the socket nor the options. */
  lemma CallbackEffects(p: Plugin, i: Input, s: SocketStatus)
    requires IsSocketEvent(i) && p.socket.Some?
    ensures i.SocketOpened? || i.SocketClosed? ==> Next(p.(status := s), i) == Next(p, i)
    ensures i.SocketOpened? ==> Next(p.(status := s), i).status == IsOpen
    ensures i.SocketClosed? ==> Next(p.(status := s), i).status == Closed
    ensures i.SocketErrored? || i.SocketMessage? ==> Next(p, i).status == p.status
    ensures var q := Next(p, i);
      && |q.log| == |p.log| + 1 && q.log[..|p.log|] == p.log && q.log[|p.log|].sink == p.notify
      && q.socket == p.socket && q.options == p.options
  {
    var q := Next(p, i);
    assert q.log[..|p.log|] == p.log;
  }

  /** Whoever is registered last receives every later notification. */
  lemma {:induction false} LatestTargetReceives(p: Plugin, fn: Sink, inputs: seq<Input>)
    requires forall k :: 0 <= k < |inputs| ==> !inputs[k].RegisterNotify?
    requires Run(p.(notify := fn), inputs).Some?
    ensures var q := Run(p.(notify := fn), inputs).value;
      |q.log| >= |p.log| && q.log[..|p.log|] == p.log &&
      forall k :: |p.log| <= k < |q.log| ==> q.log[k].sink == fn
    decreases |inputs|
  {
    var p1 := p.(notify := fn);
    if inputs != [] {
      var p2 := Next(p1, inputs[0]);
      assert p2.notify == fn;
      assert p2.log[..|p.log|] == p.log && forall k :: |p.log| <= k < |p2.log| ==> p2.log[k].sink == fn;
      assert p2 == p2.(log := p2.log).(notify := fn);
      LatestTargetReceivesStep(p2, fn, inputs[1..], p.log);
    }
  }

  /** The inductive step behind LatestTargetReceives, for a log that already extends a prefix. */
  lemma {:induction false} LatestTargetReceivesStep(p: Plugin, fn: Sink, inputs: seq<Input>, prefix: seq<Emission>)
    requires forall k :: 0 <= k < |inputs| ==> !inputs[k].RegisterNotify?
    requires p.notify == fn && Run(p, inputs).Some?
    requires |p.log| >= |prefix| && p.log[..|prefix|] == prefix
    requires forall k :: |prefix| <= k < |p.log| ==> p.log[k].sink == fn
    ensures var q := Run(p, inputs).value;
      |q.log| >= |prefix| && q.log[..|prefix|] == prefix &&
      forall k :: |prefix| <= k < |q.log| ==> q.log[k].sink == fn
    decreases |inputs|
  {
    if inputs != [] {
      var p2 := Next(p, inputs[0]);
      assert p2.notify == fn;
      assert p2.log[..|p.log|] == p.log;
      assert p2.log[..|prefix|] == prefix by {
        assert p2.log[..|prefix|] == p2.log[..|p.log|][..|prefix|];
      }
      assert forall k :: |p.log| <= k < |p2.log| ==> p2.log[k].sink == fn;
      assert forall k :: |prefix| <= k < |p2.log| ==> p2.log[k].sink == fn by {
        forall k | |prefix| <= k < |p2.log|
          ensures p2.log[k].sink == fn
        {
          if k < |p.log| {
            assert p2.log[k] == p2.log[..|p.log|][k];
          }
        }
      }
      LatestTargetReceivesStep(p2, fn, inputs[1..], prefix);
    }
  }

  /** The plugin's invariant: there is a socket exactly when the status is no longer
      NotInitialized. */
  predicate Consistent(p: Plugin) {
    p.socket.None? <==> p.status == NotInitialized
  }

  /** Every run from a consistent state ends consistent, never changes the options and
      never drops the socket. */
  lemma {:induction false} RunConsistent(p: Plugin, inputs: seq<Input>)
    requires Consistent(p) && Run(p, inputs).Some?
    ensures Consistent(Run(p, inputs).value)
    ensures Run(p, inputs).value.options == p.options
    ensures p.socket.Some? ==> Run(p, inputs).value.socket.Some?
    decreases |inputs|
  {
    if inputs != [] {
      RunConsistent(Next(p, inputs[0]), inputs[1..]);
    }
  }

  /** Once a plugin has been opened its status never returns to NotInitialized; and before
      that, `close()` or a socket callback faults. */
  lemma {:induction false} OpenedStaysInitialised(custom: Overrides, before: seq<Input>, c: Overrides, after: seq<Input>)
    requires forall k :: 0 <= k < |before| ==> before[k].RegisterNotify?
    ensures Run(Initial(custom), before + [Open(c)] + after).Some? ==>
      Run(Initial(custom), before + [Open(c)] + after).value.status != NotInitialized
    ensures Run(Initial(custom), before + [Close]).None?
    ensures forall i :: IsSocketEvent(i) ==> Run(Initial(custom), before + [i]).None?
  {
    var p0 := Initial(custom);
    var p := RegistersOnly(p0, before);
    RunConcat(p0, before, [Close]);
    RunConcat(p0, before + [Open(c)], after);
    RunConcat(p0, before, [Open(c)]);
    var q := Next(p, Open(c));
    assert [Open(c)][1..] == [];
    assert Run(p, [Open(c)]) == Some(q);
    if Run(q, after).Some? {
      RunConsistent(q, after);
    }
    forall i | IsSocketEvent(i)
      ensures Run(p0, before + [i]).None?
    {
      RunConcat(p0, before, [i]);
    }
  }

  /** Registering targets changes only the target. */
  lemma {:induction false} RegistersOnly(p: Plugin, inputs: seq<Input>) returns (q: Plugin)
    requires forall k :: 0 <= k < |inputs| ==> inputs[k].RegisterNotify?
    ensures Run(p, inputs) == Some(q) && q == q.(notify := q.notify) && q == p.(notify := q.notify)
    decreases |inputs|
  {
    if inputs == [] {
      q := p;
    } else {
      q := RegistersOnly(Next(p, inputs[0]), inputs[1..]);
    }
  }

  /** Every message a connection receives carries the `rinfo` fixed when it was opened,
      until the next `open`. */
  lemma {:induction false} MessagesCarryOpenInfo(p: Plugin, c: Overrides, inputs: seq<Input>, d: seq<bv8>)
    requires forall k :: 0 <= k < |inputs| ==> !inputs[k].Open?
    requires Run(Next(p, Open(c)), inputs).Some?
    ensures var q := Run(Next(p, Open(c)), inputs).value;
      q.socket == Some(Connect(Merge(p.options, c))) &&
      Next(q, SocketMessage(d)).log[|q.log|].note == Message(d, RoutingInfoOf(Merge(p.options, c)))
  {
    var q := KeepsSocket(Next(p, Open(c)), inputs);
  }

  /** Inputs other than `open` never replace the socket. */
  lemma {:induction false} KeepsSocket(p: Plugin, inputs: seq<Input>) returns (q: Plugin)
    requires forall k :: 0 <= k < |inputs| ==> !inputs[k].Open?
    requires Run(p, inputs).Some?
    ensures Run(p, inputs) == Some(q) && q.socket == p.socket
    decreases |inputs|
  {
    if inputs == [] {
      q := p;
    } else {
      q := KeepsSocket(Next(p, inputs[0]), inputs[1..]);
    }
  }

  /** Open a connection to a host and port, the socket connects, the plugin is closed and
      the socket disconnects: the status reads Connecting, Open, Closing and Closed in turn,
      the socket was asked to close once, and the no-op target got "open" then "close". */
  lemma ScenarioOpenClose(host: string, port: nat)
    ensures var r := Run(Initial(NoOverrides), [Open(Overrides(Some(host), Some(Some(port)), None, None))]);
      r.Some? && Code(r.value.status) == 0
    ensures var r := Run(Initial(NoOverrides), [Open(Overrides(Some(host), Some(Some(port)), None, None)),
                                                SocketOpened]);
      r.Some? && Code(r.value.status) == 1
    ensures var r := Run(Initial(NoOverrides), [Open(Overrides(Some(host), Some(Some(port)), None, None)),
                                                SocketOpened, Close]);
      r.Some? && Code(r.value.status) == 2
    ensures var r := Run(Initial(NoOverrides), [Open(Overrides(Some(host), Some(Some(port)), None, None)),
                                                SocketOpened, Close, SocketClosed]);
      && r.Some? && Code(r.value.status) == 3
      && r.value.socket == Some(Connect(Options(host, Some(port), false, [])))
      && |r.value.closeCalls| == 1
      && r.value.log == [Emission(NoOp, Lifecycle("open")), Emission(NoOp, Lifecycle("close"))]
  {
    var c := Overrides(Some(host), Some(Some(port)), None, None);
    var p0 := Initial(NoOverrides);
    var conn := Connect(Options(host, Some(port), false, []));
    var p1 := Plugin(DefaultOptions, Some(conn), Connecting, NoOp, [], []);
    ScenarioOpens(host, port);
    RunOne(p0, Open(c));
    ScenarioSteps(p0, c, p1);
    ScenarioSignals(p1);
  }

  /** From the connecting state of the scenario: the connected signal, `close()` and the
      disconnected signal move the status to 1, 2 and 3, ask the socket to close once, and
      emit "open" and then "close" to the no-op target. */
  lemma ScenarioSignals(p1: Plugin)
    requires p1.socket.Some? && p1.status == Connecting && p1.notify == NoOp
    requires p1.log == [] && p1.closeCalls == []
    ensures Next(p1, SocketOpened).status == IsOpen
    ensures Next(Next(p1, SocketOpened), Close).status == Closing
    ensures var q := Next(Next(Next(p1, SocketOpened), Close), SocketClosed);
      && q.status == Closed && q.socket == p1.socket && q.closeCalls == [p1.socket.value]
      && q.log == [Emission(NoOp, Lifecycle("open")), Emission(NoOp, Lifecycle("close"))]
  {
    var p2 := Next(p1, SocketOpened);
    assert p2.log == [Emission(NoOp, Lifecycle("open"))];
    var p3 := Next(p2, Close);
    assert p3.log == p2.log && p3.closeCalls == [p1.socket.value];
    var p4 := Next(p3, SocketClosed);
    assert p4.log == p2.log + [Emission(NoOp, Lifecycle("close"))];
  }

  /** The scenario's `open` on a fresh plugin: the socket for the host and port, Connecting,
      nothing emitted and nothing closed. */
  lemma ScenarioOpens(host: string, port: nat)
    ensures Next(Initial(NoOverrides), Open(Overrides(Some(host), Some(Some(port)), None, None)))
         == Plugin(DefaultOptions, Some(Connect(Options(host, Some(port), false, []))), Connecting, NoOp, [], [])
  {
    assert Initial(NoOverrides).options == DefaultOptions;
    assert Merge(DefaultOptions, Overrides(Some(host), Some(Some(port)), None, None))
        == Options(host, Some(port), false, []);
  }

  /** After a run reaches a socket, the connected signal, `close()` and the disconnected
      signal run one after the other. */
  lemma ScenarioSteps(p0: Plugin, c: Overrides, p1: Plugin)
    requires Run(p0, [Open(c)]) == Some(p1) && p1.socket.Some?
    ensures Run(p0, [Open(c), SocketOpened]) == Some(Next(p1, SocketOpened))
    ensures Run(p0, [Open(c), SocketOpened, Close]) == Some(Next(Next(p1, SocketOpened), Close))
    ensures Run(p0, [Open(c), SocketOpened, Close, SocketClosed])
         == Some(Next(Next(Next(p1, SocketOpened), Close), SocketClosed))
  {
    var p2 := Next(p1, SocketOpened);
    RunThen(p0, [Open(c)], p1, SocketOpened);
    assert [Open(c)] + [SocketOpened] == [Open(c), SocketOpened];
    var p3 := Next(p2, Close);
    RunThen(p0, [Open(c), SocketOpened], p2, Close);
    assert [Open(c), SocketOpened] + [Close] == [Open(c), SocketOpened, Close];
    RunThen(p0, [Open(c), SocketOpened, Close], p3, SocketClosed);
    assert [Open(c), SocketOpened, Close] + [SocketClosed] == [Open(c), SocketOpened, Close, SocketClosed];
  }

  /** A single enabled input runs to its step. */
  lemma RunOne(p: Plugin, i: Input)
    requires Enabled(p, i)
    ensures Run(p, [i]) == Some(Next(p, i))
  {
    assert [i][1..] == [];
  }

  /** Extending a run that reached q by one enabled input takes one more step from q. */
  lemma RunThen(p: Plugin, a: seq<Input>, q: Plugin, i: Input)
    requires Run(p, a) == Some(q) && Enabled(q, i)
    ensures Run(p, a + [i]) == Some(Next(q, i))
  {
    RunConcat(p, a, [i]);
    RunOne(q, i);
  }

  // ---------------------------------------------------------------------------------------
  // The plugin object

  class WebsocketClientPlugin {
    var options: Options
    /** The current socket; None before the first `open`. */
    var socket: Option<Connection>
    var socketStatus: SocketStatus
    var notify: Sink
    /** The `notify` calls made so far. */
    var log: seq<Emission>
    /** The sockets `close()` was called on, in order. */
    var closeCalls: seq<Connection>

    ghost function State(): Plugin
      reads this
    {
      Plugin(options, socket, socketStatus, notify, log, closeCalls)
    }

    constructor(custom: Overrides)
      ensures State() == Initial(custom)
    {
      options := Merge(DefaultOptions, custom);
      socket := None;
      socketStatus := NotInitialized;
      notify := NoOp;
      log := [];
      closeCalls := [];
    }

    /** `registerNotify`: replace the single notify target. */
    method RegisterNotify(fn: Sink)
      modifies this
      ensures notify == fn
      ensures State() == Next(old(State()), Input.RegisterNotify(fn))
    {
      notify := fn;
    }

    /** `status`: the stored status as its number, with no side effect. */
    method Status() returns (code: int)
      ensures code == Code(socketStatus) && FromCode(code) == Some(socketStatus)
    {
      CodeRoundTrip(socketStatus, 0);
      code := Code(socketStatus);
    }

    /** `open`: merge the argument over the options for this connection, close an existing
        socket, create the socket from the merged options and be Connecting. */
    method Open(custom: Overrides)
      modifies this
      ensures options == old(options) && socketStatus == Connecting
      ensures socket == Some(Connect(Merge(old(options), custom)))
      ensures State() == Next(old(State()), Input.Open(custom))
    {
      var o := Merge(options, custom);
      if socket.Some? {
        Close();
      }
      socket := Some(Connect(o));
      socketStatus := Connecting;
    }

    /** `close`: be Closing, then ask the socket to close. */
    method Close()
      requires socket.Some?
      modifies this
      ensures socketStatus == Closing && closeCalls == old(closeCalls) + [old(socket).value]
      ensures State() == Next(old(State()), Input.Close)
    {
      socketStatus := Closing;
      closeCalls := closeCalls + [socket.value];
    }

    // The four socket callbacks. They act on the current socket: a socket replaced by a
    // later `open` keeps its own `onclose`, which would still write the status when it
    // fires; which socket fires when is up to the runtime.

    /** `onopen`: be Open and notify "open". */
    method HandleOpen()
      requires socket.Some?
      modifies this
      ensures socket == old(socket)
      ensures socketStatus == IsOpen && log == old(log) + [Emission(notify, Lifecycle("open"))]
      ensures State() == Next(old(State()), SocketOpened)
    {
      socketStatus := IsOpen;
      log := log + [Emission(notify, Lifecycle("open"))];
    }

    /** `onclose`: be Closed and notify "close". */
    method HandleClose()
      requires socket.Some?
      modifies this
      ensures socket == old(socket)
      ensures socketStatus == Closed && log == old(log) + [Emission(notify, Lifecycle("close"))]
      ensures State() == Next(old(State()), SocketClosed)
    {
      socketStatus := Closed;
      log := log + [Emission(notify, Lifecycle("close"))];
    }

    /** `onerror`: notify "error" with the error; the status stays. */
    method HandleError(error: nat)
      requires socket.Some?
      modifies this
      ensures socket == old(socket)
      ensures socketStatus == old(socketStatus) && log == old(log) + [Emission(notify, Failure(error))]
      ensures State() == Next(old(State()), SocketErrored(error))
    {
      log := log + [Emission(notify, Failure(error))];
    }

    /** `onmessage`: notify the data with the connection's `rinfo`. */
    method HandleMessage(data: seq<bv8>)
      requires socket.Some?
      modifies this
      ensures socket == old(socket)
      ensures socketStatus == old(socketStatus)
      ensures log == old(log) + [Emission(notify, Message(data, socket.value.rinfo))]
      ensures State() == Next(old(State()), SocketMessage(data))
    {
      log := log + [Emission(notify, Message(data, socket.value.rinfo))];
    }
  }
}
