/**
 One window per key (internal/gateway/ratelimit_backend.go).

 A request looks its window up under the backend's lock and updates it later under the window's own
 lock; a reload may drop keys in between.
 */
module RateBackend {
  import W = SlidingWindow

  // ---------------------------------------------------------------- interleavings

  /** A request between lookup and update. */
  datatype Pending = Pending(key: string, window: nat, limit: int, now: int)

  /** Every window object ever made, by identity, with the key it was made for. */
  datatype Store = Store(
    windows: map<string, nat>,
    contents: seq<seq<int>>,
    madeFor: seq<string>,
    pending: map<nat, Pending>)

  const EMPTY_STORE: Store := Store(map[], [], [], map[])

  datatype Action =
    | LookUp(r: nat, key: string, limit: int, now: int)
    | Update(r: nat)
    | Retain(keys: set<string>)

  predicate Possible(s: Store, a: Action) {
    match a
    case LookUp(r, _, limit, _) => r !in s.pending && limit > 0
    case Update(r) => r in s.pending && s.pending[r].window < |s.contents|
    case Retain(_) => true
  }

  function Apply(s: Store, a: Action): Store
    requires Possible(s, a)
  {
    match a
    case LookUp(r, key, limit, now) =>
      if key in s.windows then s.(pending := s.pending[r := Pending(key, s.windows[key], limit, now)])
      else
        var id := |s.contents|;
        Store(s.windows[key := id], s.contents + [[]], s.madeFor + [key], s.pending[r := Pending(key, id, limit, now)])
    case Update(r) =>
      var p := s.pending[r];
      s.(contents := s.contents[p.window := W.AfterAllow(s.contents[p.window], p.limit, p.now, W.MINUTE)],
      pending := s.pending - {r})
    case Retain(keys) =>
      s.(windows := map key | key in s.windows && key in keys :: s.windows[key])
  }

  predicate Feasible(s: Store, actions: seq<Action>)
    decreases |actions|
  {
    actions == [] || (Possible(s, actions[0]) && Feasible(Apply(s, actions[0]), actions[1..]))
  }

  function Run(s: Store, actions: seq<Action>): Store
    requires Feasible(s, actions)
    decreases |actions|
  {
    if actions == [] then s else Run(Apply(s, actions[0]), actions[1..])
  }

  /** The calls made for one key, in the order their windows were updated. */
  function CallsFor(s: Store, actions: seq<Action>, key: string): seq<W.Call>
    requires Feasible(s, actions)
    decreases |actions|
  {
    if actions == [] then []
    else CallOf(s, actions[0], key) + CallsFor(Apply(s, actions[0]), actions[1..], key)
  }

  function CallOf(s: Store, a: Action, key: string): seq<W.Call>
    requires Possible(s, a)
  {
    if a.Update? && s.pending[a.r].key == key then [W.Call(s.pending[a.r].limit, s.pending[a.r].now)] else []
  }

  /** The answers those calls get from the window objects they looked up. */
  function AnswersFor(s: Store, actions: seq<Action>, key: string): seq<bool>
    requires Feasible(s, actions)
    decreases |actions|
  {
    if actions == [] then []
    else AnswerOf(s, actions[0], key) + AnswersFor(Apply(s, actions[0]), actions[1..], key)
  }

  function AnswerOf(s: Store, a: Action, key: string): seq<bool>
    requires Possible(s, a)
  {
    if a.Update? && s.pending[a.r].key == key
    then var p := s.pending[a.r]; [W.AllowAnswer(s.contents[p.window], p.limit, p.now, W.MINUTE).allowed]
    else []
  }

  predicate AlwaysRetained(actions: seq<Action>, key: string) {
    forall i :: 0 <= i < |actions| && actions[i].Retain? ==> key in actions[i].keys
  }

  /** Windows are never shared between keys. */
  predicate WellFormed(s: Store) {
    && |s.madeFor| == |s.contents|
    && (forall key :: key in s.windows ==> s.windows[key] < |s.contents| && s.madeFor[s.windows[key]] == key)
    && (forall r :: r in s.pending ==>
          s.pending[r].window < |s.contents| && s.madeFor[s.pending[r].window] == s.pending[r].key)
  }

  /** `key` has one window, it holds `window`, and every pending request for the key refers to it. */
  predicate OneWindow(s: Store, key: string, window: seq<int>) {
    && (key !in s.windows ==> window == [])
    && (key in s.windows ==> s.windows[key] < |s.contents| && s.contents[s.windows[key]] == window)
    && (forall r :: r in s.pending && s.pending[r].key == key ==>
          key in s.windows && s.pending[r].window == s.windows[key])
  }

  lemma StepKeepsShape(s: Store, a: Action)
    requires WellFormed(s) && Possible(s, a)
    ensures WellFormed(Apply(s, a))
  {
  }

  lemma StepKeepsWindow(s: Store, a: Action, key: string, window: seq<int>)
    requires WellFormed(s) && Possible(s, a) && OneWindow(s, key, window)
    requires a.Retain? ==> key in a.keys
    ensures OneWindow(Apply(s, a), key,
                      if a.Update? && s.pending[a.r].key == key
                      then W.AfterAllow(window, s.pending[a.r].limit, s.pending[a.r].now, W.MINUTE)
                      else window)
  {
  }

  /** A key that a reload does not retain starts over with an empty window, once no request still holds the
      old one; the keys it retains are exactly those of both sets. */
  lemma DroppedStartsOver(s: Store, keys: set<string>, key: string)
    requires key !in keys && forall r :: r in s.pending ==> s.pending[r].key != key
    ensures OneWindow(Apply(s, Retain(keys)), key, [])
    ensures Apply(s, Retain(keys)).windows.Keys == s.windows.Keys * keys
  {
  }

  lemma OneCallFirst(l: W.Ledger, call: W.Call, rest: seq<W.Call>)
    ensures W.Answers(l, [call] + rest, W.MINUTE)
            == [W.AllowAnswer(l.window, call.limit, call.now, W.MINUTE).allowed]
               + W.Answers(W.Step(l, call, W.MINUTE), rest, W.MINUTE)
    ensures W.Run(l, [call] + rest, W.MINUTE) == W.Run(W.Step(l, call, W.MINUTE), rest, W.MINUTE)
  {
    assert ([call] + rest)[1..] == rest;
  }

  /**
   Per-key composition.  However lookups, updates and reloads interleave, a key that every reload
   retains keeps a single window: its contents and the answers given are those of one window object
   that saw only this key's calls.  Calls for other keys leave no trace.
   */
  lemma {:induction false} KeyHasOwnWindow(s: Store, actions: seq<Action>, key: string, l: W.Ledger)
    requires WellFormed(s) && Feasible(s, actions) && AlwaysRetained(actions, key) && OneWindow(s, key, l.window)
    ensures AnswersFor(s, actions, key) == W.Answers(l, CallsFor(s, actions, key), W.MINUTE)
    ensures OneWindow(Run(s, actions), key, W.Run(l, CallsFor(s, actions, key), W.MINUTE).window)
    decreases |actions|
  {
    if actions != [] {
      var a := actions[0];
      var own := CallOf(s, a, key);
      var rest := CallsFor(Apply(s, a), actions[1..], key);
      StepKeepsShape(s, a);
      OwnStep(s, a, key, l);
      if own == [] {
        assert own + rest == rest;
        KeyHasOwnWindow(Apply(s, a), actions[1..], key, l);
      } else {
        OneCallFirst(l, own[0], rest);
        KeyHasOwnWindow(Apply(s, a), actions[1..], key, W.Step(l, own[0], W.MINUTE));
      }
    }
  }

  /** One step, from the key's point of view: nothing, or one call on its window. */
  lemma OwnStep(s: Store, a: Action, key: string, l: W.Ledger)
    requires WellFormed(s) && Possible(s, a) && OneWindow(s, key, l.window) && (a.Retain? ==> key in a.keys)
    ensures CallOf(s, a, key) == [] ==> AnswerOf(s, a, key) == [] && OneWindow(Apply(s, a), key, l.window)
    ensures CallOf(s, a, key) != [] ==>
              var call := CallOf(s, a, key)[0];
              && CallOf(s, a, key) == [call]
              && AnswerOf(s, a, key) == [W.AllowAnswer(l.window, call.limit, call.now, W.MINUTE).allowed]
              && OneWindow(Apply(s, a), key, W.Step(l, call, W.MINUTE).window)
  {
    StepKeepsWindow(s, a, key, l.window);
    if CallOf(s, a, key) != [] {
      W.StepIsAllow(l, CallOf(s, a, key)[0], W.MINUTE);
    }
  }

  /** So each such key gets the one-minute guarantee across reloads, calls late by at most `d` included. */
  lemma KeyAdmissionBound(actions: seq<Action>, key: string, latest: int, d: int, most: nat)
    requires Feasible(EMPTY_STORE, actions) && AlwaysRetained(actions, key)
    requires var calls := CallsFor(EMPTY_STORE, actions, key);
             d >= 0 && W.LimitsAtMost(calls, most) && W.LateByAtMost(latest, calls, d)
    ensures var calls := CallsFor(EMPTY_STORE, actions, key);
            && AnswersFor(EMPTY_STORE, actions, key) == W.Answers(W.EMPTY, calls, W.MINUTE)
            && W.Bounded(W.Run(W.EMPTY, calls, W.MINUTE).recorded, W.MINUTE - d, most)
  {
    KeyHasOwnWindow(EMPTY_STORE, actions, key, W.EMPTY);
    W.AdmissionBoundFromEmpty(CallsFor(EMPTY_STORE, actions, key), latest, d, most, W.MINUTE);
  }

  // ---------------------------------------------------------------- tokens

  /** The same steps as the tokens' holders see them; `rateKey` is the hash. */
  datatype TokenAction =
    | AskFor(r: nat, token: string, limit: int, now: int)
    | Finish(r: nat)
    | Reload(tokens: set<string>)

  function Keyed(a: TokenAction, rateKey: string -> string): Action {
    match a
    case AskFor(r, token, limit, now) => LookUp(r, rateKey(token), limit, now)
    case Finish(r) => Update(r)
    case Reload(tokens) => Retain(set token | token in tokens :: rateKey(token))
  }

  function AllKeyed(actions: seq<TokenAction>, rateKey: string -> string): (keyed: seq<Action>)
    ensures |keyed| == |actions|
    ensures forall i :: 0 <= i < |actions| ==> keyed[i] == Keyed(actions[i], rateKey)
  {
    seq(|actions|, i requires 0 <= i < |actions| => Keyed(actions[i], rateKey))
  }

  /** Who is waiting between lookup and update, and with what call. */
  datatype Owner = Owner(token: string, call: W.Call)

  function OwnersAfter(owners: map<nat, Owner>, a: TokenAction): map<nat, Owner> {
    match a
    case AskFor(r, token, limit, now) => owners[r := Owner(token, W.Call(limit, now))]
    case Finish(r) => owners - {r}
    case Reload(_) => owners
  }

  /** A token's own calls, in the order they are charged, from the tokens' side alone. */
  function CallsBy(owners: map<nat, Owner>, actions: seq<TokenAction>, token: string): seq<W.Call>
    decreases |actions|
  {
    if actions == [] then []
    else
      (if actions[0].Finish? && actions[0].r in owners && owners[actions[0].r].token == token
       then [owners[actions[0].r].call] else [])
      + CallsBy(OwnersAfter(owners, actions[0]), actions[1..], token)
  }

  predicate InjectiveOn(rateKey: string -> string, used: set<string>) {
    forall t1, t2 :: t1 in used && t2 in used && rateKey(t1) == rateKey(t2) ==> t1 == t2
  }

  predicate Uses(actions: seq<TokenAction>, used: set<string>) {
    forall i :: 0 <= i < |actions| && actions[i].AskFor? ==> actions[i].token in used
  }

  predicate TokenRetained(actions: seq<TokenAction>, token: string) {
    forall i :: 0 <= i < |actions| && actions[i].Reload? ==> token in actions[i].tokens
  }

  /** The pending requests are the owners' requests under their tokens' keys. */
  predicate Owned(s: Store, owners: map<nat, Owner>, used: set<string>, rateKey: string -> string) {
    forall r :: r in s.pending ==>
      && r in owners
      && owners[r].token in used
      && s.pending[r].key == rateKey(owners[r].token)
      && owners[r].call == W.Call(s.pending[r].limit, s.pending[r].now)
  }

  lemma OwnedStep(s: Store, owners: map<nat, Owner>, a: TokenAction, used: set<string>, rateKey: string -> string)
    requires Owned(s, owners, used, rateKey) && Possible(s, Keyed(a, rateKey))
    requires a.AskFor? ==> a.token in used
    ensures Owned(Apply(s, Keyed(a, rateKey)), OwnersAfter(owners, a), used, rateKey)
  {
  }

  /** Where keys are injective on the tokens in use, the calls for a token's key are its own calls. */
  lemma {:induction false} KeyCallsAreTokenCalls(
      s: Store, owners: map<nat, Owner>, actions: seq<TokenAction>, token: string, used: set<string>,
      rateKey: string -> string)
    requires InjectiveOn(rateKey, used) && token in used && Uses(actions, used)
    requires Owned(s, owners, used, rateKey) && Feasible(s, AllKeyed(actions, rateKey))
    ensures CallsFor(s, AllKeyed(actions, rateKey), rateKey(token)) == CallsBy(owners, actions, token)
    decreases |actions|
  {
    if actions != [] {
      var keyed := AllKeyed(actions, rateKey);
      assert keyed[1..] == AllKeyed(actions[1..], rateKey);
      OwnedStep(s, owners, actions[0], used, rateKey);
      KeyCallsAreTokenCalls(Apply(s, keyed[0]), OwnersAfter(owners, actions[0]), actions[1..], token, used, rateKey);
    }
  }

  /**
   The guarantee per token.  With keys injective on the tokens in use, a token that every reload
   retains is answered, through any interleaving with other tokens and with reloads, as by one window
   that saw only its own calls, and so gets the admission bound.
   */
  lemma TokenAdmissionBound(
      actions: seq<TokenAction>, token: string, used: set<string>, rateKey: string -> string,
      latest: int, d: int, most: nat)
    requires InjectiveOn(rateKey, used) && token in used && Uses(actions, used) && TokenRetained(actions, token)
    requires Feasible(EMPTY_STORE, AllKeyed(actions, rateKey))
    requires var own := CallsBy(map[], actions, token);
             d >= 0 && W.LimitsAtMost(own, most) && W.LateByAtMost(latest, own, d)
    ensures var own := CallsBy(map[], actions, token);
            && AnswersFor(EMPTY_STORE, AllKeyed(actions, rateKey), rateKey(token)) == W.Answers(W.EMPTY, own, W.MINUTE)
            && W.Bounded(W.Run(W.EMPTY, own, W.MINUTE).recorded, W.MINUTE - d, most)
  {
    KeyCallsAreTokenCalls(EMPTY_STORE, map[], actions, token, used, rateKey);
    KeyAdmissionBound(AllKeyed(actions, rateKey), rateKey(token), latest, d, most);
  }

  // ---------------------------------------------------------------- the keys a reload retains

  /** RetainTokens: the keys of the tokens in the new snapshot, `rateKey` being the hash. */
  method RetainedKeys(tokens: set<string>, rateKey: string -> string) returns (keys: set<string>)
    ensures forall key :: key in keys <==> exists token :: token in tokens && rateKey(token) == key
  {
    keys := {};
    var left := tokens;
    while left != {}
      invariant left <= tokens
      invariant forall key :: key in keys <==> exists token :: token in tokens - left && rateKey(token) == key
      decreases |left|
    {
      var token :| token in left;
      ghost var before := tokens - left;
      left := left - {token};
      assert tokens - left == before + {token};
      keys := keys + {rateKey(token)};
    }
    assert tokens - left == tokens;
  }

  // ---------------------------------------------------------------- the backend object

  class MemoryBackend {
    var windows: map<string, W.RateWindow>

    /** Each key has its own window object on its own array. */
    ghost predicate Valid()
      reads this, windows.Values, set w | w in windows.Values :: w.requests
    {
      && (forall key :: key in windows ==> windows[key].Valid())
      && (forall k1, k2 :: k1 in windows && k2 in windows && k1 != k2 ==>
            windows[k1] != windows[k2] && windows[k1].requests != windows[k2].requests)
    }

    /** The timestamps retained for a key; none if it has no window. */
    ghost function Retained(key: string): seq<int>
      reads this, windows.Values, set w | w in windows.Values :: w.requests
      requires Valid()
    {
      if key in windows then windows[key].Contents() else []
    }

    constructor ()
      ensures Valid() && windows == map[]
    {
      windows := map[];
    }

    /** The part of Allow under the backend's lock. */
    method LookUp(key: string) returns (window: W.RateWindow)
      requires Valid()
      modifies this
      ensures Valid() && key in windows && windows[key] == window && window.Valid()
      ensures key in old(windows) ==> windows == old(windows)
      ensures key !in old(windows) ==>
                && windows == old(windows)[key := window]
                && fresh(window) && fresh(window.requests) && window.Contents() == []
    {
      if key !in windows {
        window := new W.RateWindow();
        windows := windows[key := window];
      } else {
        window := windows[key];
      }
    }

    /** The part under the window's own lock. */
    method Charge(key: string, limit: int, now: int) returns (answer: W.Answer)
      requires Valid() && key in windows
      modifies windows[key], windows[key].requests
      ensures Valid()
      ensures answer == W.AllowAnswer(old(windows[key].Contents()), limit, now, W.MINUTE)
      ensures windows[key].Contents() == W.AfterAllow(old(windows[key].Contents()), limit, now, W.MINUTE)
      ensures forall k :: k in windows && k != key ==> windows[k].Contents() == old(windows[k].Contents())
    {
      var allowed, retryAfter := windows[key].Allow(limit, now);
      return W.Answer(allowed, retryAfter);
    }

    /** A call touches the window of its own key and no other. */
    method Allow(key: string, limit: int, now: int) returns (answer: W.Answer)
      requires Valid()
      modifies this, windows.Values, set w | w in windows.Values :: w.requests
      ensures Valid()
      ensures limit <= 0 ==> answer == W.Answer(true, 0) && windows == old(windows)
      ensures limit > 0 ==>
                && answer == W.AllowAnswer(old(Retained(key)), limit, now, W.MINUTE)
                && Retained(key) == W.AfterAllow(old(Retained(key)), limit, now, W.MINUTE)
                && windows.Keys == old(windows).Keys + {key}
      ensures forall k :: k in old(windows) && (k != key || limit <= 0) ==>
                k in windows && windows[k] == old(windows)[k] && windows[k].Contents() == old(windows[k].Contents())
    {
      if limit <= 0 {
        return W.Answer(true, 0);
      }
      answer := LookUpAndCharge(key, limit, now);
    }

    method LookUpAndCharge(key: string, limit: int, now: int) returns (answer: W.Answer)
      requires Valid()
      modifies this, windows.Values, set w | w in windows.Values :: w.requests
      ensures Valid() && windows.Keys == old(windows).Keys + {key}
      ensures answer == W.AllowAnswer(old(Retained(key)), limit, now, W.MINUTE)
      ensures windows[key].Contents() == W.AfterAllow(old(Retained(key)), limit, now, W.MINUTE)
      ensures forall k :: k in old(windows) && k != key ==>
                windows[k] == old(windows)[k] && windows[k].Contents() == old(windows[k].Contents())
    {
      ghost var was := Retained(key);
      var window := LookUp(key);
      assert window.Contents() == was;
      answer := Charge(key, limit, now);
    }

    /** The windows of some keys. */
    static function Among(windows: map<string, W.RateWindow>, keys: set<string>): map<string, W.RateWindow> {
      map key | key in windows && key in keys :: windows[key]
    }

    static lemma AmongLess(windows: map<string, W.RateWindow>, left: set<string>, keys: set<string>, key: string)
      requires key in left
      ensures Among(windows, left - {key} + keys)
              == if key in keys then Among(windows, left + keys) else Among(windows, left + keys) - {key}
    {
    }

    /** Windows of retained keys stay the same objects, untouched. */
    method RetainKeys(keys: set<string>)
      requires Valid()
      modifies this
      ensures Valid()
      ensures windows == map key | key in old(windows) && key in keys :: old(windows)[key]
    {
      ghost var was := windows;
      var left := windows.Keys;
      while left != {}
        invariant left <= was.Keys
        invariant windows == Among(was, left + keys)
        decreases |left|
      {
        var key :| key in left;
        AmongLess(was, left, keys, key);
        left := left - {key};
        if key !in keys {
          windows := windows - {key};
        }
      }
    }
  }
}
