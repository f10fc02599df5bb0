/** The trusted-key registry (receipts.py): a worklist that establishes every key over signed
    transitions from one repository root. */
module TrustedKeys {
  import opened Common
  import opened Canonical
  import opened Base64Url
  import opened CompactJws
  import Receipts

  datatype Trust = RepositoryRoot | Transition

  datatype Key = Key(kid: string, x: string, trust: Trust)

  datatype KeyTransition = KeyTransition(fromKid: string, toKid: string, jws: string)

  datatype Document = Document(keys: seq<Key>, transitions: seq<KeyTransition>)

  /** Does a transition's signature, made by `source`, bind `target`? */
  type Verifier = (Key, Key, string) -> bool

  const TRANSITION_TYP := "recallops-receipt-key-transition+jws"

  function PublicJwk(key: Key): Json {
    JObj(PublicJwkKeys, [JStr("Ed25519"), JStr("OKP"), JStr(key.x)])
  }

  function ExpectedPayload(c: Crypto, source: Key, target: Key): Json {
    JObj(KeyTransitionKeys,
         [JStr(source.kid), JStr(ContentDigest(c.p, "recallops-public-jwk-v1", PublicJwk(target))),
          JStr(target.kid), JStr("receipt-key-transition-v1")])
  }

  /** The verifier the registry uses. */
  function TransitionVerifier(c: Crypto): Verifier {
    (source: Key, target: Key, jws: string) =>
      var raw := Decode(source.x);
      raw.Some? && |raw.value| == 32
      && VerifyCompact(c, jws, raw.value, source.kid, TRANSITION_TYP) == Some(ExpectedPayload(c, source, target))
  }

  // ----- what an acceptable registry is -----

  predicate UniqueKids(keys: seq<Key>) {
    forall i, j :: 0 <= i < j < |keys| ==> keys[i].kid != keys[j].kid
  }

  predicate UniqueTargets(transitions: seq<KeyTransition>) {
    forall i, j :: 0 <= i < j < |transitions| ==> transitions[i].toKid != transitions[j].toKid
  }

  /** `{item.kid: item for item in keys}`. */
  function KeyIndex(keys: seq<Key>): map<string, Key> {
    if keys == [] then map[]
    else KeyIndex(keys[..|keys| - 1])[keys[|keys| - 1].kid := keys[|keys| - 1]]
  }

  function TransitionIndex(transitions: seq<KeyTransition>): map<string, KeyTransition> {
    if transitions == [] then map[]
    else TransitionIndex(transitions[..|transitions| - 1])[transitions[|transitions| - 1].toKid := transitions[|transitions| - 1]]
  }

  function Kids(keys: map<string, Key>, trust: Trust): set<string> {
    set kid | kid in keys && keys[kid].trust == trust
  }

  /** The two indexes and the verifier. */
  datatype Index = Index(keys: map<string, Key>, into: map<string, KeyTransition>, v: Verifier)

  /** The one transition into `b` comes from `a` and verifies. */
  predicate Hop(x: Index, a: string, b: string) {
    && a in x.keys && b in x.keys && x.keys[b].trust == Transition
    && b in x.into && x.into[b].fromKid == a && x.v(x.keys[a], x.keys[b], x.into[b].jws)
  }

  predicate Chain(x: Index, path: seq<string>) {
    && path != [] && path[0] in Kids(x.keys, RepositoryRoot)
    && forall i :: 0 < i < |path| ==> Hop(x, path[i - 1], path[i])
  }

  /** A key is reached from the root by a chain of verified transitions. */
  ghost predicate Reached(x: Index, kid: string) {
    exists path :: Chain(x, path) && path[|path| - 1] == kid
  }

  ghost predicate AllReached(x: Index) {
    forall kid :: kid in Kids(x.keys, Transition) ==> Reached(x, kid)
  }

  function IndexOf(d: Document, v: Verifier): Index {
    Index(KeyIndex(d.keys), TransitionIndex(d.transitions), v)
  }

  /** Unique keys, one root unless empty, one verified chain to every other key, no unused transition. */
  ghost predicate Acceptable(d: Document, v: Verifier) {
    var x := IndexOf(d, v);
    && UniqueKids(d.keys) && UniqueTargets(d.transitions)
    && (d.keys != [] ==> |Kids(x.keys, RepositoryRoot)| == 1)
    && AllReached(x)
    && x.into.Keys <= Kids(x.keys, Transition)
  }

  lemma {:induction false} KeyIndexFinds(keys: seq<Key>)
    requires UniqueKids(keys)
    ensures forall i :: 0 <= i < |keys| ==> keys[i].kid in KeyIndex(keys) && KeyIndex(keys)[keys[i].kid] == keys[i]
    ensures forall kid :: kid in KeyIndex(keys) ==> KeyIndex(keys)[kid] in keys && KeyIndex(keys)[kid].kid == kid
    decreases |keys|
  {
    if keys != [] {
      KeyIndexFinds(keys[..|keys| - 1]);
    }
  }

  lemma ReachedExtends(x: Index, a: string, b: string)
    requires Reached(x, a) && Hop(x, a, b)
    ensures Reached(x, b)
  {
    var path :| Chain(x, path) && path[|path| - 1] == a;
    assert Chain(x, path + [b]);
  }

  /** A set of keys that holds the root and is left by no verified transition holds all reached keys. */
  lemma {:induction false} ClosedHoldsReached(x: Index, closed: set<string>, path: seq<string>)
    requires Chain(x, path) && Kids(x.keys, RepositoryRoot) <= closed
    requires forall a, b :: a in closed && Hop(x, a, b) ==> b in closed
    ensures path[|path| - 1] in closed
    decreases |path|
  {
    if |path| > 1 {
      ClosedHoldsReached(x, closed, path[..|path| - 1]);
      assert Hop(x, path[|path| - 2], path[|path| - 1]);
    }
  }

  // ----- the constructor's loops -----

  lemma KidAppears(keys: seq<Key>, i: nat)
    requires i < |keys| && UniqueKids(keys[..i])
    ensures KeyIndex(keys[..i + 1]) == KeyIndex(keys[..i])[keys[i].kid := keys[i]]
    ensures UniqueKids(keys[..i + 1]) <==> keys[i].kid !in KeyIndex(keys[..i])
  {
    assert keys[..i + 1] == keys[..i] + [keys[i]];
    OneMoreKid(keys[..i], keys[i]);
    assert (keys[..i] + [keys[i]])[..i] == keys[..i];
  }

  lemma OneMoreKid(before: seq<Key>, k: Key)
    requires UniqueKids(before)
    ensures UniqueKids(before + [k]) <==> k.kid !in KeyIndex(before)
  {
    KeyIndexFinds(before);
    var all := before + [k];
    if k.kid in KeyIndex(before) {
      var j :| 0 <= j < |before| && before[j] == KeyIndex(before)[k.kid];
      assert all[j].kid == all[|before|].kid;
    }
  }

  method IndexKeys(keys: seq<Key>) returns (r: Result<map<string, Key>>)
    ensures r.Ok? <==> UniqueKids(keys)
    ensures r.Ok? ==> r.value == KeyIndex(keys)
  {
    var index: map<string, Key> := map[];
    for i := 0 to |keys|
      invariant UniqueKids(keys[..i]) && index == KeyIndex(keys[..i])
    {
      KidAppears(keys, i);
      if keys[i].kid in index {
        return Err("trusted-key registry contains duplicate keys");
      }
      index := index[keys[i].kid := keys[i]];
    }
    assert keys[..|keys|] == keys;
    r := Ok(index);
  }

  lemma {:induction false} TransitionIndexFinds(transitions: seq<KeyTransition>)
    requires UniqueTargets(transitions)
    ensures forall i :: 0 <= i < |transitions| ==>
              transitions[i].toKid in TransitionIndex(transitions) && TransitionIndex(transitions)[transitions[i].toKid] == transitions[i]
    ensures forall kid :: kid in TransitionIndex(transitions) ==>
              TransitionIndex(transitions)[kid] in transitions && TransitionIndex(transitions)[kid].toKid == kid
    decreases |transitions|
  {
    if transitions != [] {
      TransitionIndexFinds(transitions[..|transitions| - 1]);
    }
  }

  lemma TargetAppears(ts: seq<KeyTransition>, i: nat)
    requires i < |ts| && UniqueTargets(ts[..i])
    ensures TransitionIndex(ts[..i + 1]) == TransitionIndex(ts[..i])[ts[i].toKid := ts[i]]
    ensures UniqueTargets(ts[..i + 1]) <==> ts[i].toKid !in TransitionIndex(ts[..i])
  {
    assert ts[..i + 1] == ts[..i] + [ts[i]];
    OneMoreTarget(ts[..i], ts[i]);
    assert (ts[..i] + [ts[i]])[..i] == ts[..i];
  }

  lemma OneMoreTarget(before: seq<KeyTransition>, t: KeyTransition)
    requires UniqueTargets(before)
    ensures UniqueTargets(before + [t]) <==> t.toKid !in TransitionIndex(before)
  {
    TransitionIndexFinds(before);
    var all := before + [t];
    if t.toKid in TransitionIndex(before) {
      var j :| 0 <= j < |before| && before[j] == TransitionIndex(before)[t.toKid];
      assert all[j].toKid == all[|before|].toKid;
    }
  }

  method IndexTransitions(transitions: seq<KeyTransition>) returns (r: Result<map<string, KeyTransition>>)
    ensures r.Ok? <==> UniqueTargets(transitions)
    ensures r.Ok? ==> r.value == TransitionIndex(transitions)
  {
    var index: map<string, KeyTransition> := map[];
    for i := 0 to |transitions|
      invariant UniqueTargets(transitions[..i]) && index == TransitionIndex(transitions[..i])
    {
      TargetAppears(transitions, i);
      if transitions[i].toKid in index {
        return Err("trusted key has multiple predecessor transitions");
      }
      index := index[transitions[i].toKid := transitions[i]];
    }
    assert transitions[..|transitions|] == transitions;
    r := Ok(index);
  }

  /** What the worklist knows at any time. */
  ghost predicate Progress(x: Index, established: set<string>, pending: set<string>) {
    && Kids(x.keys, RepositoryRoot) <= established
    && pending <= Kids(x.keys, Transition) <= established + pending
    && established <= x.keys.Keys && established !! pending
    && (forall kid :: kid in established ==> Reached(x, kid))
  }

  predicate Blocked(x: Index, established: set<string>, target: string) {
    target !in x.into || x.into[target].fromKid !in established
  }

  lemma StartsAtRoots(x: Index)
    ensures Progress(x, Kids(x.keys, RepositoryRoot), Kids(x.keys, Transition))
  {
    forall kid | kid in Kids(x.keys, RepositoryRoot)
      ensures Reached(x, kid)
    {
      assert Chain(x, [kid]);
    }
  }

  /** No pending key can be reached when every one of them is blocked. */
  lemma StuckIsUnreachable(x: Index, established: set<string>, pending: set<string>)
    requires Progress(x, established, pending) && pending != {}
    requires forall target :: target in pending ==> Blocked(x, established, target)
    ensures !AllReached(x)
  {
    var target :| target in pending;
    if Reached(x, target) {
      var path :| Chain(x, path) && path[|path| - 1] == target;
      ClosedHoldsReached(x, established, path);
    }
  }

  lemma LastHop(x: Index, kid: string) returns (a: string)
    requires Reached(x, kid) && kid !in Kids(x.keys, RepositoryRoot)
    ensures Hop(x, a, kid) && Reached(x, a)
  {
    var path :| Chain(x, path) && path[|path| - 1] == kid;
    a := path[|path| - 2];
    assert Chain(x, path[..|path| - 1]);
  }

  /** Nor can the target of a transition that does not verify: it is the only one into that key. */
  lemma BadTransitionIsUnreachable(x: Index, target: string)
    requires target in Kids(x.keys, Transition) && target in x.into && x.into[target].fromKid in x.keys
    requires !x.v(x.keys[x.into[target].fromKid], x.keys[target], x.into[target].jws)
    ensures !AllReached(x)
  {
    if Reached(x, target) {
      var a := LastHop(x, target);
    }
  }

  lemma EstablishOne(x: Index, established: set<string>, pending: set<string>, target: string)
    requires Progress(x, established, pending) && target in pending && !Blocked(x, established, target)
    requires x.into[target].fromKid in x.keys
    requires x.v(x.keys[x.into[target].fromKid], x.keys[target], x.into[target].jws)
    ensures Progress(x, established + {target}, pending - {target})
  {
    ReachedExtends(x, x.into[target].fromKid, target);
  }

  /** One pass over the pending keys, in any order. */
  method Pass(x: Index, before: set<string>, waiting: set<string>)
    returns (bad: bool, established: set<string>, pending: set<string>)
    requires Progress(x, before, waiting)
    ensures bad ==> !AllReached(x)
    ensures !bad ==> Progress(x, established, pending) && pending <= waiting
    ensures !bad && pending == waiting ==>
              established == before && forall target :: target in waiting ==> Blocked(x, before, target)
  {
    established, pending := before, waiting;
    var todo := waiting;
    while todo != {}
      invariant todo <= pending <= waiting
      invariant Progress(x, established, pending)
      invariant pending == waiting ==>
                  established == before && forall target :: target in waiting && target !in todo ==> Blocked(x, before, target)
      decreases |todo|
    {
      var target :| target in todo;
      todo := todo - {target};
      if !Blocked(x, established, target) {
        // Established and pending keys are in the index, so both lookups succeed.
        var source := x.into[target].fromKid;
        if !x.v(x.keys[source], x.keys[target], x.into[target].jws) {
          BadTransitionIsUnreachable(x, target);
          return true, established, pending;
        }
        EstablishOne(x, established, pending, target);
        established := established + {target};
        pending := pending - {target};
      }
    }
    bad := false;
  }

  /** The worklist: passes until nothing is pending, or a pass makes no progress. */
  method Establish(x: Index) returns (reached: bool)
    ensures reached <==> AllReached(x)
  {
    var established, pending := Kids(x.keys, RepositoryRoot), Kids(x.keys, Transition);
    StartsAtRoots(x);
    while pending != {}
      invariant Progress(x, established, pending)
      decreases |pending|
    {
      var bad, now, left := Pass(x, established, pending);
      if bad {
        return false;
      }
      if left == pending {
        StuckIsUnreachable(x, established, pending);
        return false;
      }
      ProperSubsetIsSmaller(left, pending);
      established, pending := now, left;
    }
    reached := true;
  }

  lemma ProperSubsetIsSmaller(a: set<string>, b: set<string>)
    requires a < b
    ensures |a| < |b|
  {
    assert b == a + (b - a);
    assert b - a != {};
  }

  /** TrustedKeyRegistry.__init__: whatever order the worklist takes, the registry accepts exactly
      the acceptable documents. */
  method BuildRegistry(d: Document, v: Verifier) returns (accepted: bool)
    ensures accepted <==> Acceptable(d, v)
  {
    var keys := IndexKeys(d.keys);
    if keys.Err? {
      return false;
    }
    if d.keys != [] && |Kids(keys.value, RepositoryRoot)| != 1 {
      return false;
    }
    var into := IndexTransitions(d.transitions);
    if into.Err? {
      return false;
    }
    var x := Index(keys.value, into.value, v);
    var reached := Establish(x);
    accepted := reached && x.into.Keys <= Kids(x.keys, Transition);
  }

  /** An accepted registry: every key has a chain of verified transitions from the one root. */
  lemma AcceptedKeysAreChained(d: Document, v: Verifier, k: Key)
    requires Acceptable(d, v) && k in d.keys
    ensures Reached(IndexOf(d, v), k.kid)
    ensures exists root :: root in d.keys && Kids(KeyIndex(d.keys), RepositoryRoot) == {root.kid}
  {
    var x := IndexOf(d, v);
    KeyIndexFinds(d.keys);
    assert x.keys[k.kid] == k;
    if k.trust == RepositoryRoot {
      assert Chain(x, [k.kid]);
    }
    var kid :| kid in Kids(x.keys, RepositoryRoot);
    Receipts.SingletonMember(Kids(x.keys, RepositoryRoot), kid);
    assert x.keys[kid] in d.keys;
  }

  /** The registry as the program builds it, over its own verifier. */
  method LoadRegistry(c: Crypto, d: Document) returns (accepted: bool)
    ensures accepted <==> Acceptable(d, TransitionVerifier(c))
  {
    accepted := BuildRegistry(d, TransitionVerifier(c));
  }

  /** What an accepted registry means for every key but the root: the one transition into it is a
      JWS in compact form under the kid and the 32-byte key of another accepted key, and its signed
      payload names both kids and the digest of this key's own JWK. */
  lemma AcceptedKeysAreSigned(c: Crypto, d: Document, k: Key) returns (source: Key, t: KeyTransition, raw: seq<byte>)
    requires ParsesCanonical(c) && Acceptable(d, TransitionVerifier(c)) && k in d.keys && k.trust == Transition
    ensures source in d.keys && Reached(IndexOf(d, TransitionVerifier(c)), source.kid)
    ensures t in d.transitions && t.fromKid == source.kid && t.toKid == k.kid
    ensures forall u :: u in d.transitions && u.toKid == k.kid ==> u == t
    ensures Decode(source.x) == Some(raw) && |raw| == 32
    ensures || SignedForm(c, t.jws, raw, source.kid, TRANSITION_TYP, JNum(1), ExpectedPayload(c, source, k))
            || SignedForm(c, t.jws, raw, source.kid, TRANSITION_TYP, JBool(true), ExpectedPayload(c, source, k))
  {
    var x := IndexOf(d, TransitionVerifier(c));
    KeyIndexFinds(d.keys);
    TransitionIndexFinds(d.transitions);
    assert x.keys[k.kid] == k;
    var a := LastHop(x, k.kid);
    source, t := x.keys[a], x.into[k.kid];
    raw := Decode(source.x).value;
    AcceptsOnlyCompactForms(c, t.jws, raw, source.kid, TRANSITION_TYP, ExpectedPayload(c, source, k));
  }
}
