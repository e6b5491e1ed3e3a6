/** `OSCEventHandler`: subscriptions to the three lifecycle channels and to OSC addresses,
    the tokens that identify them, and dispatch to them. */
module Osc {
  import opened Outcomes
  import opened Decimal
  import opened Address
  import opened Trie

  /** What a caller may pass as an event name, by its JavaScript type. */
  datatype EventName =
    | Str(s: string)                // a string: a channel name or an address
    | Segments(segs: seq<string>)   // an array of segments, used as it is
    | Record                        // any other object: its `length` is undefined, so walks stop at the root
    | Null                          // `typeof null` is 'object' as well
    | Undefined
    | Scalar                        // a number or a boolean

  /** The callback argument: a function (an opaque identity) or anything else. */
  datatype CallbackArg = Callable(id: CallbackId) | NotCallable

  /** The bare string `on`/`off` throw, and the runtime fault of dereferencing null. */
  datatype Error = InvalidArgument | TypeError

  /** One call `callback(payload)` that a dispatch makes. */
  datatype Invocation<P> = Invocation(callback: CallbackId, payload: P)

  /** `_callbackHandlers` as the constructor creates it. */
  const LifecycleChannels: map<string, seq<Sub>> := map["onOpen" := [], "onError" := [], "onClose" := []]

  /** `typeof name === 'object'`. */
  predicate IsObject(name: EventName) {
    name.Segments? || name.Record? || name.Null?
  }

  /** The type test that `on` and `off` make of the name. */
  predicate NameTypeOk(name: EventName) {
    name.Str? || IsObject(name)
  }

  /** A string naming an existing lifecycle channel. */
  predicate IsChannel(channels: map<string, seq<Sub>>, name: EventName) {
    name.Str? && name.s in channels
  }

  /** The type test lets through strings and every object, null included, and turns away
      exactly undefined and the other scalars. */
  lemma NameTypes(name: EventName)
    ensures NameTypeOk(name) <==> !(name.Undefined? || name.Scalar?)
    ensures NameTypeOk(Null) && !NameTypeOk(Undefined)
  {
  }

  /** On the router's channel table, exactly the three names `onOpen`, `onError` and
      `onClose` are channels; every other string is an address. */
  lemma ChannelNames(name: EventName)
    ensures IsChannel(LifecycleChannels, name) <==>
      name == Str("onOpen") || name == Str("onError") || name == Str("onClose")
  {
  }

  /** The trie path a name resolves to when it is not a channel; None where reading the
      name's `length` faults. */
  function AddressOf(name: EventName): (r: Option<seq<string>>)
    ensures r.None? <==> name.Null? || name.Undefined?
    ensures name.Str? ==> r == Some(TransformToArray(name.s))
    ensures name.Segments? ==> r == Some(name.segs)
    ensures name.Record? || name.Scalar? ==> r == Some([])
  {
    match name
    case Str(s) => Some(TransformToArray(s))
    case Segments(p) => Some(p)
    case Record => Some([])
    case Scalar => Some([])
    case Null => None
    case Undefined => None
  }

  // ---------------------------------------------------------------------------------------
  // Subscription lists

  predicate HasToken(l: seq<Sub>, token: string) {
    exists i :: 0 <= i < |l| && l[i].token == token
  }

  /** No two subscriptions of the list share a token. */
  predicate Unique(l: seq<Sub>) {
    forall i, j :: 0 <= i < j < |l| ==> l[i].token != l[j].token
  }

  /** The list without the entries carrying the token, the others in their order. */
  function Without(l: seq<Sub>, token: string): (r: seq<Sub>)
    ensures forall x :: x in r ==> x in l && x.token != token
    ensures |r| <= |l|
  {
    if l == [] then [] else (if l[0].token == token then [] else [l[0]]) + Without(l[1..], token)
  }

  lemma {:induction false} WithoutConcat(a: seq<Sub>, b: seq<Sub>, token: string)
    ensures Without(a + b, token) == Without(a, token) + Without(b, token)
  {
    if a == [] {
      assert a + b == b;
    } else {
      ConcatSplit(a, b);
      WithoutConcat(a[1..], b, token);
      ConsAssoc(a[0], Without(a[1..], token), Without(b, token));
    }
  }

  lemma ConcatSplit(a: seq<Sub>, b: seq<Sub>)
    requires a != []
    ensures (a + b)[0] == a[0] && (a + b)[1..] == a[1..] + b
  {
  }

  lemma ConsAssoc(x: Sub, u: seq<Sub>, v: seq<Sub>)
    ensures [x] + (u + v) == ([x] + u) + v
  {
  }

  /** Removing a token that is not there changes nothing; removing one that is shortens the list. */
  lemma {:induction false} WithoutLength(l: seq<Sub>, token: string)
    ensures HasToken(l, token) <==> |Without(l, token)| < |l|
    ensures !HasToken(l, token) ==> Without(l, token) == l
  {
    if l != [] {
      WithoutLength(l[1..], token);
      if HasToken(l[1..], token) {
        var i :| 0 <= i < |l[1..]| && l[1..][i].token == token;
        assert l[i + 1].token == token;
      }
      if HasToken(l, token) && l[0].token != token {
        var i :| 0 <= i < |l| && l[i].token == token;
        assert l[1..][i - 1].token == token;
      }
      assert l == [l[0]] + l[1..];
    }
  }

  /** Subscribing a fresh token and unsubscribing it again gives the list back. */
  lemma WithoutAppended(l: seq<Sub>, s: Sub)
    requires !HasToken(l, s.token)
    ensures Without(l + [s], s.token) == l
  {
    WithoutConcat(l, [s], s.token);
    WithoutLength(l, s.token);
    assert Without([s], s.token) == [] + Without([], s.token);
  }

  /** A token issued while the counter stood at most at u: a numeral of value at most u. */
  predicate IssuedBelow(token: string, u: int) {
    Numeral(token) && ParseDecimal(token) <= u
  }

  /** What the router keeps true of every list: issued tokens, none twice. */
  predicate WellIssued(l: seq<Sub>, u: int) {
    (forall x :: x in l ==> IssuedBelow(x.token, u)) && Unique(l)
  }

  /** The next token is held by no list whose tokens were all issued before it. */
  lemma FreshToken(l: seq<Sub>, u: int)
    requires -1 <= u && WellIssued(l, u)
    ensures !HasToken(l, DecimalString(u + 1))
  {
    ParseDecimalString(u + 1);
    forall i | 0 <= i < |l| ensures l[i].token != DecimalString(u + 1) {
      assert l[i] in l;
    }
  }

  /** Appending the next token keeps a list well issued. */
  lemma AppendFresh(l: seq<Sub>, u: int, callback: CallbackId)
    requires -1 <= u && WellIssued(l, u)
    ensures WellIssued(l + [Sub(DecimalString(u + 1), callback)], u + 1)
  {
    FreshToken(l, u);
    ParseDecimalString(u + 1);
    var m := l + [Sub(DecimalString(u + 1), callback)];
    forall i, j | 0 <= i < j < |m| ensures m[i].token != m[j].token {
      if j == |l| {
        assert m[i] == l[i];
      }
    }
  }

  lemma UniqueCons(x: Sub, w: seq<Sub>)
    requires Unique(w) && forall y :: y in w ==> y.token != x.token
    ensures Unique([x] + w)
  {
    var m := [x] + w;
    forall i, j | 0 <= i < j < |m| ensures m[i].token != m[j].token {
      assert m[j] == w[j - 1];
      if i > 0 {
        assert m[i] == w[i - 1];
      }
    }
  }

  lemma UniqueTail(l: seq<Sub>)
    requires l != [] && Unique(l)
    ensures Unique(l[1..])
    ensures forall y :: y in l[1..] ==> y.token != l[0].token
  {
    forall y | y in l[1..] ensures y.token != l[0].token {
      var k :| 0 <= k < |l[1..]| && l[1..][k] == y;
      assert l[k + 1] == y;
    }
  }

  /** Removing entries keeps a list's tokens distinct. */
  lemma {:induction false} WithoutUnique(l: seq<Sub>, token: string)
    requires Unique(l)
    ensures Unique(Without(l, token))
  {
    if l != [] {
      UniqueTail(l);
      WithoutUnique(l[1..], token);
      if l[0].token != token {
        UniqueCons(l[0], Without(l[1..], token));
      }
    }
  }

  lemma WithoutWellIssued(l: seq<Sub>, token: string, u: int)
    requires WellIssued(l, u)
    ensures WellIssued(Without(l, token), u)
  {
    WithoutUnique(l, token);
  }

  /** Every channel list is well issued. */
  predicate ChannelsIssued(channels: map<string, seq<Sub>>, u: int) {
    forall c :: c in channels ==> WellIssued(channels[c], u)
  }

  /** Every list of the trie is well issued. */
  ghost predicate TrieIssued(t: Node, u: int) {
    forall p :: Lookup(t, p).Some? ==> WellIssued(Lookup(t, p).value, u)
  }

  lemma TrieFresh(t: Node, u: int)
    requires -1 <= u && TrieIssued(t, u)
    ensures forall p :: Lookup(t, p).Some? ==> !HasToken(Lookup(t, p).value, DecimalString(u + 1))
  {
    forall p | Lookup(t, p).Some? ensures !HasToken(Lookup(t, p).value, DecimalString(u + 1)) {
      FreshToken(Lookup(t, p).value, u);
    }
  }

  lemma ChannelsFresh(channels: map<string, seq<Sub>>, u: int)
    requires -1 <= u && ChannelsIssued(channels, u)
    ensures forall c :: c in channels ==> !HasToken(channels[c], DecimalString(u + 1))
  {
    forall c | c in channels ensures !HasToken(channels[c], DecimalString(u + 1)) {
      FreshToken(channels[c], u);
    }
  }

  lemma ChannelsAppend(channels: map<string, seq<Sub>>, c: string, u: int, callback: CallbackId)
    requires -1 <= u && c in channels && ChannelsIssued(channels, u)
    ensures ChannelsIssued(channels[c := channels[c] + [Sub(DecimalString(u + 1), callback)]], u + 1)
  {
    AppendFresh(channels[c], u, callback);
  }

  lemma ChannelsRemove(channels: map<string, seq<Sub>>, c: string, token: string, u: int)
    requires c in channels && ChannelsIssued(channels, u)
    ensures ChannelsIssued(channels[c := Without(channels[c], token)], u)
  {
    WithoutWellIssued(channels[c], token, u);
  }

  lemma TrieInsert(t: Node, path: seq<string>, u: int, callback: CallbackId)
    requires -1 <= u && TrieIssued(t, u)
    ensures TrieIssued(Insert(t, path, Sub(DecimalString(u + 1), callback)), u + 1)
  {
    var s := Sub(DecimalString(u + 1), callback);
    forall p | Lookup(Insert(t, path, s), p).Some? ensures WellIssued(Lookup(Insert(t, path, s), p).value, u + 1) {
      InsertLookup(t, path, s, p);
      if p == path {
        AppendFresh(ListOf(Lookup(t, p)), u, callback);
      }
    }
  }

  lemma TrieRemove(t: Node, path: seq<string>, token: string, u: int)
    requires Lookup(t, path).Some? && TrieIssued(t, u)
    ensures TrieIssued(Replace(t, path, Without(Lookup(t, path).value, token)), u)
  {
    var l := Lookup(t, path).value;
    forall p | Lookup(Replace(t, path, Without(l, token)), p).Some?
      ensures WellIssued(Lookup(Replace(t, path, Without(l, token)), p).value, u)
    {
      ReplaceLookup(t, path, Without(l, token), p);
      if p == path {
        WithoutWellIssued(l, token, u);
      }
    }
  }

  lemma TrieMono(t: Node, u: int)
    requires TrieIssued(t, u)
    ensures TrieIssued(t, u + 1)
  {
  }

  /** Some list, channel or trie, holds the token. */
  ghost predicate Held(channels: map<string, seq<Sub>>, t: Node, token: string) {
    (exists c :: c in channels && HasToken(channels[c], token)) ||
    (exists p :: Lookup(t, p).Some? && HasToken(Lookup(t, p).value, token))
  }

  // ---------------------------------------------------------------------------------------
  // `off`'s removal loop

  lemma WithoutSnoc(a: seq<Sub>, x: Sub, token: string)
    ensures Without(a + [x], token) == Without(a, token) + (if x.token == token then [] else [x])
  {
    WithoutConcat(a, [x], token);
    assert Without([x], token) == (if x.token == token then [] else [x]) + Without([], token);
  }

  lemma HasTokenSnoc(a: seq<Sub>, x: Sub, token: string)
    ensures HasToken(a + [x], token) <==> HasToken(a, token) || x.token == token
  {
    if HasToken(a + [x], token) && x.token != token {
      var i :| 0 <= i < |a + [x]| && (a + [x])[i].token == token;
      assert a[i].token == token;
    }
    if HasToken(a, token) {
      var i :| 0 <= i < |a| && a[i].token == token;
      assert (a + [x])[i].token == token;
    }
    if x.token == token {
      assert (a + [x])[|a|].token == token;
    }
  }

  /** What the loop of `off` has established after passing handlers[..k], keeping `done`:
      the same entries without the token, and no entry with the token once the list is unique. */
  predicate Passed(handlers: seq<Sub>, token: string, done: seq<Sub>, k: int, removed: bool, uniq: bool) {
    0 <= k <= |handlers| &&
    Without(done, token) == Without(handlers[..k], token) &&
    (uniq ==> !HasToken(done, token)) &&
    (removed <==> HasToken(handlers[..k], token)) &&
    (!removed ==> done == handlers[..k])
  }

  /** The loop passes an entry with another token and keeps it. */
  lemma KeepStep(handlers: seq<Sub>, token: string, done: seq<Sub>, k: int, removed: bool, uniq: bool)
    requires Passed(handlers, token, done, k, removed, uniq)
    requires k < |handlers| && handlers[k].token != token
    ensures Passed(handlers, token, done + [handlers[k]], k + 1, removed, uniq)
  {
    assert handlers[..k + 1] == handlers[..k] + [handlers[k]];
    WithoutSnoc(handlers[..k], handlers[k], token);
    HasTokenSnoc(handlers[..k], handlers[k], token);
    WithoutSnoc(done, handlers[k], token);
    HasTokenSnoc(done, handlers[k], token);
  }

  lemma UniqueNext(l: seq<Sub>, k: nat)
    requires Unique(l) && k + 1 < |l|
    ensures l[k].token != l[k + 1].token
  {
  }

  /** The loop splices out an entry with the token and then passes over the next entry,
      which it keeps unexamined. */
  lemma RemoveStep(handlers: seq<Sub>, token: string, done: seq<Sub>, k: int, removed: bool, uniq: bool)
    requires Passed(handlers, token, done, k, removed, uniq) && (uniq ==> Unique(handlers))
    requires k < |handlers| && handlers[k].token == token
    ensures k + 1 < |handlers| ==> Passed(handlers, token, done + [handlers[k + 1]], k + 2, true, uniq)
    ensures k + 1 == |handlers| ==> Passed(handlers, token, done, |handlers|, true, uniq)
  {
    RemoveHere(handlers, token, done, k, removed, uniq);
    if k + 1 < |handlers| {
      RemoveThenSkip(handlers, token, done, k, uniq);
    }
  }

  /** After the splice at k, the entry that moved into place is passed over. */
  lemma RemoveThenSkip(handlers: seq<Sub>, token: string, done: seq<Sub>, k: int, uniq: bool)
    requires Passed(handlers, token, done, k + 1, true, uniq) && (uniq ==> Unique(handlers))
    requires 0 <= k && k + 1 < |handlers| && handlers[k].token == token
    ensures Passed(handlers, token, done + [handlers[k + 1]], k + 2, true, uniq)
  {
    if uniq {
      UniqueNext(handlers, k);
    }
    SkipNext(handlers, token, done, k + 1, uniq);
  }

  /** Passing the entry with the token: nothing of it is kept, and it was found. */
  lemma RemoveHere(handlers: seq<Sub>, token: string, done: seq<Sub>, k: int, removed: bool, uniq: bool)
    requires Passed(handlers, token, done, k, removed, uniq)
    requires k < |handlers| && handlers[k].token == token
    ensures Passed(handlers, token, done, k + 1, true, uniq)
  {
    assert handlers[..k + 1] == handlers[..k] + [handlers[k]];
    WithoutSnoc(handlers[..k], handlers[k], token);
    HasTokenSnoc(handlers[..k], handlers[k], token);
  }

  /** Passing over the entry after a removal: it is kept, whatever its token. */
  lemma SkipNext(handlers: seq<Sub>, token: string, done: seq<Sub>, k: int, uniq: bool)
    requires Passed(handlers, token, done, k, true, uniq)
    requires k < |handlers| && (uniq ==> handlers[k].token != token)
    ensures Passed(handlers, token, done + [handlers[k]], k + 1, true, uniq)
  {
    var skipped := handlers[k];
    assert handlers[..k + 1] == handlers[..k] + [skipped];
    WithoutSnoc(handlers[..k], skipped, token);
    HasTokenSnoc(handlers[..k], skipped, token);
    WithoutSnoc(done, skipped, token);
    HasTokenSnoc(done, skipped, token);
  }

  /** The invariant of `off`'s loop at index i: `rest` is what is left of the entries passed
      so far (`done`, taken from handlers[..k]) followed by the entries not reached yet. After a
      removal at the last position i runs one past the end. */
  predicate SpliceInv(handlers: seq<Sub>, token: string, rest: seq<Sub>, i: int,
                      done: seq<Sub>, k: int, removed: bool, uniq: bool) {
    0 <= k <= |handlers| &&
    rest == done + handlers[k..] &&
    (i == |done| || (i == |done| + 1 && k == |handlers|)) &&
    Passed(handlers, token, done, k, removed, uniq)
  }

  /** One iteration of `off`'s loop keeps its invariant. */
  lemma SpliceStep(handlers: seq<Sub>, token: string, rest: seq<Sub>, i: int,
                   done: seq<Sub>, k: int, removed: bool, uniq: bool)
    returns (done': seq<Sub>, k': int)
    requires SpliceInv(handlers, token, rest, i, done, k, removed, uniq) && (uniq ==> Unique(handlers))
    requires 0 <= i < |rest|
    ensures rest[i].token == token ==>
      SpliceInv(handlers, token, rest[..i] + rest[i + 1..], i + 1, done', k', true, uniq)
    ensures rest[i].token != token ==>
      SpliceInv(handlers, token, rest, i + 1, done', k', removed, uniq)
  {
    assert rest[i] == handlers[k];
    if rest[i].token == token {
      done', k' := SpliceRemove(handlers, token, rest, i, done, k, removed, uniq);
    } else {
      KeepStep(handlers, token, done, k, removed, uniq);
      SpliceKeepShape(handlers, rest, done, k);
      done', k' := done + [handlers[k]], k + 1;
    }
  }

  lemma SpliceKeepShape(handlers: seq<Sub>, rest: seq<Sub>, done: seq<Sub>, k: int)
    requires 0 <= k < |handlers| && rest == done + handlers[k..]
    ensures rest == (done + [handlers[k]]) + handlers[k + 1..]
  {
    assert handlers[k..] == [handlers[k]] + handlers[k + 1..];
  }

  lemma SpliceRemove(handlers: seq<Sub>, token: string, rest: seq<Sub>, i: int,
                     done: seq<Sub>, k: int, removed: bool, uniq: bool)
    returns (done': seq<Sub>, k': int)
    requires SpliceInv(handlers, token, rest, i, done, k, removed, uniq) && (uniq ==> Unique(handlers))
    requires 0 <= i < |rest| && rest[i].token == token
    ensures SpliceInv(handlers, token, rest[..i] + rest[i + 1..], i + 1, done', k', true, uniq)
  {
    assert i == |done| && rest[i] == handlers[k];
    RemoveStep(handlers, token, done, k, removed, uniq);
    SpliceRemoveShape(handlers, rest, i, done, k);
    if k + 1 < |handlers| {
      done', k' := SpliceRemoveMid(handlers, token, rest, i, done, k, uniq);
    } else {
      done', k' := SpliceRemoveLast(handlers, token, rest, i, done, k, uniq);
    }
  }

  /** The splice leaves an entry at position i, which the loop then passes unexamined. */
  lemma SpliceRemoveMid(handlers: seq<Sub>, token: string, rest: seq<Sub>, i: int,
                        done: seq<Sub>, k: int, uniq: bool)
    returns (done': seq<Sub>, k': int)
    requires 0 <= k && k + 1 < |handlers| && i == |done| && i < |rest|
    requires rest[..i] + rest[i + 1..] == (done + [handlers[k + 1]]) + handlers[k + 2..]
    requires Passed(handlers, token, done + [handlers[k + 1]], k + 2, true, uniq)
    ensures SpliceInv(handlers, token, rest[..i] + rest[i + 1..], i + 1, done', k', true, uniq)
  {
    done', k' := done + [handlers[k + 1]], k + 2;
  }

  /** The splice removes the last entry, and the loop ends. */
  lemma SpliceRemoveLast(handlers: seq<Sub>, token: string, rest: seq<Sub>, i: int,
                         done: seq<Sub>, k: int, uniq: bool)
    returns (done': seq<Sub>, k': int)
    requires 0 <= k && k + 1 == |handlers| && i == |done| && i < |rest|
    requires rest[..i] + rest[i + 1..] == done
    requires Passed(handlers, token, done, |handlers|, true, uniq)
    ensures SpliceInv(handlers, token, rest[..i] + rest[i + 1..], i + 1, done', k', true, uniq)
  {
    done', k' := done, |handlers|;
    assert handlers[k'..] == [];
    assert done' + handlers[k'..] == done;
  }

  lemma SpliceRemoveShape(handlers: seq<Sub>, rest: seq<Sub>, i: int, done: seq<Sub>, k: int)
    requires 0 <= k < |handlers| && rest == done + handlers[k..] && i == |done|
    ensures k + 1 < |handlers| ==> rest[..i] + rest[i + 1..] == (done + [handlers[k + 1]]) + handlers[k + 2..]
    ensures k + 1 == |handlers| ==> rest[..i] + rest[i + 1..] == done
  {
    assert rest[..i] == done;
    assert rest[i + 1..] == handlers[k + 1..];
    if k + 1 < |handlers| {
      assert handlers[k + 1..] == [handlers[k + 1]] + handlers[k + 2..];
    }
  }

  /** The loop of `off`: `splice(i, 1)` on each entry with the token, then `i++`. As written
      the loop does not look at the entry that moves into position i after a removal; that
      only matters when a list holds a token twice, which the router never lets happen. */
  method SpliceOut(handlers: seq<Sub>, token: string) returns (rest: seq<Sub>, removed: bool)
    ensures removed <==> HasToken(handlers, token)
    ensures !removed ==> rest == handlers
    ensures Without(rest, token) == Without(handlers, token)
    ensures Unique(handlers) ==> rest == Without(handlers, token)
  {
    rest, removed := handlers, false;
    var i := 0;
    ghost var done: seq<Sub> := [];
    ghost var k := 0;
    ghost var uniq := Unique(handlers);
    while i < |rest|
      invariant SpliceInv(handlers, token, rest, i, done, k, removed, uniq)
      decreases |rest| - i
    {
      done, k := SpliceStep(handlers, token, rest, i, done, k, removed, uniq);
      if rest[i].token == token {
        rest := rest[..i] + rest[i + 1..];
        removed := true;
      }
      i := i + 1;
    }
    SpliceDone(handlers, token, rest, i, done, k, removed, uniq);
  }

  /** When the loop stops every entry has been passed. */
  lemma SpliceDone(handlers: seq<Sub>, token: string, rest: seq<Sub>, i: int,
                   done: seq<Sub>, k: int, removed: bool, uniq: bool)
    requires SpliceInv(handlers, token, rest, i, done, k, removed, uniq) && i >= |rest|
    requires uniq == Unique(handlers)
    ensures removed <==> HasToken(handlers, token)
    ensures !removed ==> rest == handlers
    ensures Without(rest, token) == Without(handlers, token)
    ensures Unique(handlers) ==> rest == Without(handlers, token)
  {
    assert k == |handlers|;
    assert handlers[..k] == handlers;
    assert rest == done;
    WithoutLength(rest, token);
  }

  // ---------------------------------------------------------------------------------------
  // Dispatch

  /** The calls `forEach` makes over a list: each callback once, in list order. */
  function Calls<P>(l: seq<Sub>, payload: P): (r: seq<Invocation<P>>)
    ensures |r| == |l|
    ensures forall i :: 0 <= i < |l| ==> r[i] == Invocation(l[i].callback, payload)
  {
    seq(|l|, i requires 0 <= i < |l| => Invocation(l[i].callback, payload))
  }

  /** What `notify` does, as written: a channel name calls that channel's list; any other
      name is resolved to a path and calls the list of the node at exactly that path. When
      there is no such node `handlers` is null and `handlers.forEach` faults. */
  function Dispatch<P>(channels: map<string, seq<Sub>>, trie: Node, name: EventName, payload: P)
    : (r: Result<seq<Invocation<P>>, Error>)
    ensures r.Err? <==> (name.Null? || name.Undefined? ||
      (!IsChannel(channels, name) && Lookup(trie, AddressOf(name).value).None?))
    ensures r.Ok? && IsChannel(channels, name) ==> |r.value| == |channels[name.s]|
  {
    if IsChannel(channels, name) then Ok(Calls(channels[name.s], payload))
    else match AddressOf(name)
      case None => Err(TypeError)
      case Some(path) =>
        match Lookup(trie, path)
        case None => Err(TypeError)
        case Some(handlers) => Ok(Calls(handlers, payload))
  }

  /** `notify` with the null guard that `off` has: an address without a node is a
      dispatch to nobody. */
  function GuardedDispatch<P>(channels: map<string, seq<Sub>>, trie: Node, name: EventName, payload: P)
    : (r: Result<seq<Invocation<P>>, Error>)
    ensures r.Err? <==> name.Null? || name.Undefined?
    ensures Dispatch(channels, trie, name, payload).Ok? ==> r == Dispatch(channels, trie, name, payload)
    ensures (!IsChannel(channels, name) && AddressOf(name).Some? && Lookup(trie, AddressOf(name).value).None?)
      ==> r == Ok([])
  {
    if IsChannel(channels, name) then Ok(Calls(channels[name.s], payload))
    else match AddressOf(name)
      case None => Err(TypeError)
      case Some(path) => Ok(Calls(ListOf(Lookup(trie, path)), payload))
  }

  /** Subscribing at an address and then dispatching to it ends with one call of the new
      callback, after the calls the node already made. */
  lemma SubscribeThenDispatch<P>(channels: map<string, seq<Sub>>, trie: Node, name: EventName,
                                 s: Sub, payload: P)
    requires !IsChannel(channels, name) && AddressOf(name).Some?
    ensures Dispatch(channels, Insert(trie, AddressOf(name).value, s), name, payload)
         == Ok(Calls(ListOf(Lookup(trie, AddressOf(name).value)), payload) + [Invocation(s.callback, payload)])
  {
    var path := AddressOf(name).value;
    InsertLookup(trie, path, s, path);
    var l := ListOf(Lookup(trie, path));
    assert Calls(l + [s], payload) == Calls(l, payload) + [Invocation(s.callback, payload)];
  }

  /** Subscribing to a channel and then dispatching to it ends with one call of the new
      callback, after the calls the channel already made. */
  lemma ChannelSubscribeThenDispatch<P>(channels: map<string, seq<Sub>>, trie: Node, c: string,
                                        s: Sub, payload: P)
    requires c in channels
    ensures Dispatch(channels[c := channels[c] + [s]], trie, Str(c), payload)
         == Ok(Calls(channels[c], payload) + [Invocation(s.callback, payload)])
  {
    assert Calls(channels[c] + [s], payload) == Calls(channels[c], payload) + [Invocation(s.callback, payload)];
  }

  /** Dispatching to a proper prefix of a freshly created path calls nothing: the nodes that
      `on` creates on the way carry empty lists. */
  lemma PrefixCallsNothing<P>(channels: map<string, seq<Sub>>, trie: Node, path: seq<string>,
                              s: Sub, q: seq<string>, payload: P)
    requires q < path && NodeAt(trie, q).None?
    ensures Dispatch(channels, Insert(trie, path, s), Segments(q), payload) == Ok([])
  {
    InsertLookup(trie, path, s, q);
  }

  /** Scenario on a fresh trie: subscribe a callback to "/x/y"; dispatching "/x/y" calls it
      once with the payload, while dispatching "/x/z" faults as written and calls nobody
      once guarded. */
  lemma ScenarioAddress<P>(x: string, y: string, z: string, callback: CallbackId, payload: P)
    requires IsSegment(x) && IsSegment(y) && IsSegment(z) && y != z
    ensures var t := Insert(Empty, [x, y], Sub("0", callback));
      && Dispatch(LifecycleChannels, t, Str("/" + x + "/" + y), payload) == Ok([Invocation(callback, payload)])
      && Dispatch(LifecycleChannels, t, Str("/" + x + "/" + z), payload) == Err(TypeError)
      && GuardedDispatch(LifecycleChannels, t, Str("/" + x + "/" + z), payload) == Ok([])
  {
    var s := Sub("0", callback);
    var t := Insert(Empty, [x, y], s);
    AddressString(x, y);
    AddressString(x, z);
    InsertLookup(Empty, [x, y], s, [x, y]);
    InsertLookup(Empty, [x, y], s, [x, z]);
    assert [x, z] != [x, y] && !([x, z] <= [x, y]) by {
      assert [x, z][1] != [x, y][1];
    }
    assert Lookup(t, [x, y]) == Some([s]) by {
      assert Lookup(Empty, [x, y]) == None;
      assert [] + [s] == [s];
    }
    assert Calls([s], payload) == [Invocation(callback, payload)];
  }

  /** "/x/y" is no channel name and resolves to the path [x, y]. */
  lemma AddressString(x: string, y: string)
    requires IsSegment(x) && IsSegment(y)
    ensures !IsChannel(LifecycleChannels, Str("/" + x + "/" + y))
    ensures AddressOf(Str("/" + x + "/" + y)) == Some([x, y])
  {
    var a := "/" + x + "/" + y;
    assert a[0] == '/';
    assert Join([x, y]) == x + "/" + Join([y]);
    assert "/" + Join([x, y]) == a;
    TransformJoin([x, y]);
  }

  /** An array name is no channel: dispatch to it calls the list found at exactly that path. */
  lemma DispatchSegments<P>(channels: map<string, seq<Sub>>, t: Node, path: seq<string>, l: seq<Sub>, payload: P)
    requires Lookup(t, path) == Some(l)
    ensures Dispatch(channels, t, Segments(path), payload) == Ok(Calls(l, payload))
  {
    assert !IsChannel(channels, Segments(path)) && AddressOf(Segments(path)) == Some(path);
  }

  /** Two subscriptions at one path of a fresh trie make its list, in subscription order. */
  lemma TwoSubscriptions(path: seq<string>, s1: Sub, s2: Sub)
    ensures Lookup(Insert(Insert(Empty, path, s1), path, s2), path) == Some([s1, s2])
  {
    var t1 := Insert(Empty, path, s1);
    InsertLookup(Empty, path, s1, path);
    assert Lookup(t1, path) == Some([s1]) by {
      assert ListOf(Lookup(Empty, path)) == [] by {
        assert Lookup(Empty, path) == None;
      }
      assert [] + [s1] == [s1];
    }
    InsertLookup(t1, path, s2, path);
    assert [s1] + [s2] == [s1, s2];
  }

  /** Two subscriptions at one path are called in subscription order; removing the first
      one's token leaves only the second. */
  lemma SubscriptionOrder<P>(channels: map<string, seq<Sub>>, path: seq<string>, s1: Sub, s2: Sub, payload: P)
    requires s1.token != s2.token
    ensures Lookup(Insert(Insert(Empty, path, s1), path, s2), path) == Some([s1, s2])
    ensures Dispatch(channels, Insert(Insert(Empty, path, s1), path, s2), Segments(path), payload)
      == Ok([Invocation(s1.callback, payload), Invocation(s2.callback, payload)])
    ensures Dispatch(channels, Replace(Insert(Insert(Empty, path, s1), path, s2), path, Without([s1, s2], s1.token)),
                     Segments(path), payload)
      == Ok([Invocation(s2.callback, payload)])
  {
    var t := Insert(Insert(Empty, path, s1), path, s2);
    TwoSubscriptions(path, s1, s2);
    assert Without([s1, s2], s1.token) == [s2] by {
      assert [s1, s2][1..] == [s2];
    }
    ReplaceLookup(t, path, [s2], path);
    DispatchSegments(channels, t, path, [s1, s2], payload);
    DispatchSegments(channels, Replace(t, path, [s2]), path, [s2], payload);
    CallsTwo(s1, s2, payload);
  }

  lemma CallsTwo<P>(s1: Sub, s2: Sub, payload: P)
    ensures Calls([s1, s2], payload) == [Invocation(s1.callback, payload), Invocation(s2.callback, payload)]
    ensures Calls([s2], payload) == [Invocation(s2.callback, payload)]
  {
    var c := Calls([s1, s2], payload);
    assert c[0] == Invocation(s1.callback, payload) && c[1] == Invocation(s2.callback, payload);
    var d := Calls([s2], payload);
    assert d[0] == Invocation(s2.callback, payload);
  }

  /** As written, `notify` with any address on a fresh router faults, where the guarded
      dispatch calls nobody. */
  lemma UnmatchedAddressFaults<P>(s: string, payload: P)
    requires s !in LifecycleChannels
    ensures Dispatch(LifecycleChannels, Empty, Str(s), payload) == Err(TypeError)
    ensures GuardedDispatch(LifecycleChannels, Empty, Str(s), payload) == Ok([])
  {
    var path := TransformToArray(s);
    assert Lookup(Empty, path) == None;
    assert Calls([], payload) == [];
  }

  // ---------------------------------------------------------------------------------------
  // The router

  class EventHandler {
    /** `_callbackHandlers`: the lifecycle channels and their lists. */
    var callbackHandlers: map<string, seq<Sub>>
    /** `_addressHandlers`: the root of the trie. */
    var addressHandlers: Node
    /** `_uuid`: the counter behind the last token issued, -1 before the first. */
    var uuid: int

    /** The channels are the three of the constructor; every list holds tokens already
        issued, none twice. */
    ghost predicate Valid()
      reads this
    {
      callbackHandlers.Keys == LifecycleChannels.Keys &&
      -1 <= uuid &&
      ChannelsIssued(callbackHandlers, uuid) &&
      TrieIssued(addressHandlers, uuid)
    }

    constructor ()
      ensures Valid()
      ensures callbackHandlers == LifecycleChannels && addressHandlers == Empty && uuid == -1
    {
      callbackHandlers := LifecycleChannels;
      addressHandlers := Empty;
      uuid := -1;
    }

    /** `_findAddressHandler`: walk the trie segment by segment; once a segment is missing
        the walk stays at null. */
    method FindAddressHandler(address: seq<string>) returns (handlers: Option<seq<Sub>>)
      ensures handlers == Lookup(addressHandlers, address)
    {
      var obj: Option<Node> := Some(addressHandlers);
      var i := 0;
      while i < |address|
        invariant 0 <= i <= |address|
        invariant obj == NodeAt(addressHandlers, address[..i])
      {
        NodeAtSnoc(addressHandlers, address[..i], address[i]);
        assert address[..i + 1] == address[..i] + [address[i]];
        if obj.Some? && address[i] in obj.value.children {
          obj := Some(obj.value.children[address[i]]);
        } else {
          obj := None;
        }
        i := i + 1;
      }
      assert address[..i] == address;
      if obj.Some? && obj.value.cbs.Some? {
        handlers := obj.value.cbs;
      } else {
        handlers := None;
      }
    }

    /** `on`: check the argument types, issue the next token, then append the subscription
        to the channel's list, or to the list of the node at the name's path (see
        Trie.InsertLookup for what that does to every list). The token was held by no list. */
    method On(name: EventName, callback: CallbackArg) returns (r: Result<string, Error>)
      requires Valid()
      modifies this
      ensures Valid()
      ensures !(NameTypeOk(name) && callback.Callable?) ==>
        r == Err(InvalidArgument) && uuid == old(uuid) &&
        callbackHandlers == old(callbackHandlers) && addressHandlers == old(addressHandlers)
      ensures NameTypeOk(name) && callback.Callable? ==> uuid == old(uuid) + 1
      ensures name.Null? && callback.Callable? ==>
        r == Err(TypeError) && callbackHandlers == old(callbackHandlers) && addressHandlers == old(addressHandlers)
      ensures r.Ok? ==> uuid >= 0 && r.value == DecimalString(uuid) && ParseDecimal(r.value) == uuid
      ensures r.Ok? ==> !Held(old(callbackHandlers), old(addressHandlers), r.value)
      ensures IsChannel(old(callbackHandlers), name) && callback.Callable? ==>
        r.Ok? && addressHandlers == old(addressHandlers) &&
        callbackHandlers == old(callbackHandlers)[name.s := old(callbackHandlers)[name.s] + [Sub(r.value, callback.id)]]
      ensures !IsChannel(old(callbackHandlers), name) && NameTypeOk(name) && !name.Null? && callback.Callable? ==>
        r.Ok? && callbackHandlers == old(callbackHandlers) &&
        addressHandlers == Insert(old(addressHandlers), AddressOf(name).value, Sub(r.value, callback.id))
    {
      if !(NameTypeOk(name) && callback.Callable?) {
        return Err(InvalidArgument);
      }
      var next: nat := uuid + 1;
      var token := DecimalString(next);
      var data := Sub(token, callback.id);
      ParseDecimalString(next);
      ChannelsFresh(callbackHandlers, uuid);
      TrieFresh(addressHandlers, uuid);
      assert !Held(callbackHandlers, addressHandlers, token);
      if name.Str? && name.s in callbackHandlers {
        ChannelsAppend(callbackHandlers, name.s, uuid, callback.id);
        TrieMono(addressHandlers, uuid);
        callbackHandlers := callbackHandlers[name.s := callbackHandlers[name.s] + [data]];
        uuid := next;
        return Ok(token);
      }
      var address := AddressOf(name);
      if address.None? {
        TrieMono(addressHandlers, uuid);
        uuid := next;
        return Err(TypeError);
      }
      TrieInsert(addressHandlers, address.value, uuid, callback.id);
      addressHandlers := Insert(addressHandlers, address.value, data);
      uuid := next;
      r := Ok(token);
    }

    /** `off`: check the argument types and that the token is truthy, then remove the
        entries with that token from the one list the name resolves to (see
        Trie.ReplaceLookup for what that does to every list). */
    method Off(name: EventName, token: string) returns (r: Result<bool, Error>)
      requires Valid()
      modifies this`callbackHandlers, this`addressHandlers
      ensures Valid()
      ensures !(NameTypeOk(name) && token != "") ==> r == Err(InvalidArgument)
      ensures name.Null? && token != "" ==> r == Err(TypeError)
      ensures r.Err? || r == Ok(false) ==>
        callbackHandlers == old(callbackHandlers) && addressHandlers == old(addressHandlers)
      ensures IsChannel(old(callbackHandlers), name) && token != "" ==>
        var l := old(callbackHandlers)[name.s];
        r == Ok(HasToken(l, token)) && addressHandlers == old(addressHandlers) &&
        callbackHandlers == old(callbackHandlers)[name.s := Without(l, token)]
      ensures !IsChannel(old(callbackHandlers), name) && NameTypeOk(name) && !name.Null? && token != "" ==>
        var path := AddressOf(name).value;
        callbackHandlers == old(callbackHandlers) &&
        match Lookup(old(addressHandlers), path)
        case None => r == Ok(false)
        case Some(l) =>
          r == Ok(HasToken(l, token)) &&
          addressHandlers == Replace(old(addressHandlers), path, Without(l, token))
    {
      if !(NameTypeOk(name) && token != "") {
        return Err(InvalidArgument);
      }
      if name.Str? && name.s in callbackHandlers {
        var l := callbackHandlers[name.s];
        var rest, removed := SpliceOut(l, token);
        WithoutLength(l, token);
        if removed {
          ChannelsRemove(callbackHandlers, name.s, token, uuid);
          callbackHandlers := callbackHandlers[name.s := rest];
        } else {
          assert callbackHandlers[name.s := Without(l, token)] == callbackHandlers;
        }
        return Ok(removed);
      }
      var address := AddressOf(name);
      if address.None? {
        return Err(TypeError);
      }
      var path := address.value;
      var handlers := FindAddressHandler(path);
      if handlers.None? {
        return Ok(false);
      }
      var l := handlers.value;
      var rest, removed := SpliceOut(l, token);
      WithoutLength(l, token);
      if removed {
        TrieRemove(addressHandlers, path, token, uuid);
        addressHandlers := Replace(addressHandlers, path, rest);
      } else {
        ReplaceSame(addressHandlers, path);
      }
      r := Ok(removed);
    }

    /** `notify`: dispatch to a channel or to the node at the name's path; nothing changes. */
    method Notify<P>(name: EventName, payload: P) returns (r: Result<seq<Invocation<P>>, Error>)
      ensures r == Dispatch(callbackHandlers, addressHandlers, name, payload)
    {
      if name.Str? && name.s in callbackHandlers {
        var calls := CallEach(callbackHandlers[name.s], payload);
        return Ok(calls);
      }
      var address := AddressOf(name);
      if address.None? {
        return Err(TypeError);
      }
      var handlers := FindAddressHandler(address.value);
      if handlers.None? {
        return Err(TypeError);
      }
      var calls := CallEach(handlers.value, payload);
      r := Ok(calls);
    }
  }

  /** `forEach(item => item.callback(payload))`, recorded as the calls it makes. */
  method CallEach<P>(handlers: seq<Sub>, payload: P) returns (calls: seq<Invocation<P>>)
    ensures calls == Calls(handlers, payload)
  {
    calls := [];
    for i := 0 to |handlers|
      invariant |calls| == i
      invariant forall j :: 0 <= j < i ==> calls[j] == Invocation(handlers[j].callback, payload)
    {
      calls := calls + [Invocation(handlers[i].callback, payload)];
    }
  }
}
