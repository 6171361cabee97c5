/**
 * The tier gate on guest writes. A comment guest may change annotations only,
 * which the code judges by a signature of the base elements: their `id:version`
 * keys, sorted and joined.
 */
module CanvasTier {
  import opened Wrappers
  import opened CanvasSanitize

  // ---------- keys ----------

  /** A base element as far as the gate is concerned. */
  datatype Pair = Pair(id: string, version: string)

  function Key(p: Pair): string {
    p.id + ":" + p.version
  }

  function Keys(pairs: seq<Pair>): (keys: seq<string>)
    ensures |keys| == |pairs| && forall k :: 0 <= k < |pairs| ==> keys[k] == Key(pairs[k])
  {
    seq(|pairs|, k requires 0 <= k < |pairs| => Key(pairs[k]))
  }

  /** The elements that are not annotations. */
  function Base(elements: seq<Element>): seq<Pair> {
    if elements == [] then []
    else
      var e := elements[|elements| - 1];
      Base(elements[..|elements| - 1]) + Pairs(e)
  }

  /** A null element has no pair to give: reading its id throws. */
  function Pairs(e: Element): seq<Pair> {
    match e
    case NullElement => []
    case ScalarElement => [Pair("undefined", "")]
    case Object(id, version, _, _, annotation) => if annotation then [] else [Pair(id, version)]
  }

  predicate Without(s: string, c: char) {
    forall k :: 0 <= k < |s| ==> s[k] != c
  }

  /** Ids and versions that leave the delimiters alone. */
  predicate Plain(p: Pair) {
    Without(p.id, ':') && Without(p.id, '|') && Without(p.version, '|')
  }

  predicate AllPlain(pairs: seq<Pair>) {
    forall k :: 0 <= k < |pairs| ==> Plain(pairs[k])
  }

  // ---------- sorting ----------

  predicate Le(a: string, b: string) {
    a == "" || (b != "" && (a[0] < b[0] || (a[0] == b[0] && Le(a[1..], b[1..]))))
  }

  lemma {:induction false} LeTotal(a: string, b: string)
    ensures Le(a, b) || Le(b, a)
  {
    if a != "" && b != "" && a[0] == b[0] { LeTotal(a[1..], b[1..]); }
  }

  lemma {:induction false} LeAntisymmetric(a: string, b: string)
    requires Le(a, b) && Le(b, a)
    ensures a == b
  {
    if a != "" && b != "" {
      LeAntisymmetric(a[1..], b[1..]);
      assert a == [a[0]] + a[1..] && b == [b[0]] + b[1..];
    }
  }

  lemma {:induction false} LeTransitive(a: string, b: string, c: string)
    requires Le(a, b) && Le(b, c)
    ensures Le(a, c)
  {
    if a != "" && a[0] == b[0] == c[0] { LeTransitive(a[1..], b[1..], c[1..]); }
  }

  predicate Sorted(keys: seq<string>) {
    forall i, j :: 0 <= i < j < |keys| ==> Le(keys[i], keys[j])
  }

  function Insert(key: string, keys: seq<string>): seq<string> {
    if keys == [] || Le(key, keys[0]) then [key] + keys else [keys[0]] + Insert(key, keys[1..])
  }

  function Sort(keys: seq<string>): seq<string> {
    if keys == [] then [] else Insert(keys[0], Sort(keys[1..]))
  }

  lemma {:induction false} InsertKeepsKeys(key: string, keys: seq<string>)
    ensures multiset(Insert(key, keys)) == multiset{key} + multiset(keys)
  {
    hide Le;
    if keys != [] && !Le(key, keys[0]) {
      InsertKeepsKeys(key, keys[1..]);
      assert keys == [keys[0]] + keys[1..];
    }
  }

  lemma SortedCons(first: string, rest: seq<string>)
    requires Sorted(rest) && forall j :: 0 <= j < |rest| ==> Le(first, rest[j])
    ensures Sorted([first] + rest)
  {
    hide Le;
  }

  lemma {:induction false} InsertSorts(key: string, keys: seq<string>)
    requires Sorted(keys)
    ensures Sorted(Insert(key, keys)) && multiset(Insert(key, keys)) == multiset{key} + multiset(keys)
  {
    hide Le;
    InsertKeepsKeys(key, keys);
    if keys == [] {
    } else if Le(key, keys[0]) {
      forall j | 0 <= j < |keys| ensures Le(key, keys[j]) {
        if j > 0 { LeTransitive(key, keys[0], keys[j]); }
      }
      SortedCons(key, keys);
    } else {
      LeTotal(key, keys[0]);
      var rest := Insert(key, keys[1..]);
      InsertSorts(key, keys[1..]);
      forall j | 0 <= j < |rest| ensures Le(keys[0], rest[j]) {
        assert rest[j] in multiset(rest);
      }
      SortedCons(keys[0], rest);
    }
  }

  lemma {:induction false} SortSorts(keys: seq<string>)
    ensures Sorted(Sort(keys)) && multiset(Sort(keys)) == multiset(keys)
  {
    if keys != [] {
      SortSorts(keys[1..]);
      InsertSorts(keys[0], Sort(keys[1..]));
      assert keys == [keys[0]] + keys[1..];
    }
  }

  lemma RemoveAt<T>(s: seq<T>, i: nat)
    requires i < |s|
    ensures multiset(s) == multiset{s[i]} + multiset(s[..i] + s[i + 1..])
  {
    assert s == s[..i] + [s[i]] + s[i + 1..];
  }

  lemma RemoveSame<T>(a: seq<T>, i: nat, b: seq<T>, j: nat)
    requires i < |a| && j < |b| && a[i] == b[j] && multiset(a) == multiset(b)
    ensures multiset(a[..i] + a[i + 1..]) == multiset(b[..j] + b[j + 1..])
  {
    RemoveAt(a, i);
    RemoveAt(b, j);
    var x, y, one := multiset(a[..i] + a[i + 1..]), multiset(b[..j] + b[j + 1..]), multiset{a[i]};
    Cancel(one, x, y);
  }

  lemma Cancel<T>(one: multiset<T>, x: multiset<T>, y: multiset<T>)
    requires one + x == one + y
    ensures x == y
  {
    assert x == (one + x) - one && y == (one + y) - one;
  }

  lemma SmallestFirst(a: seq<string>, b: seq<string>)
    requires Sorted(a) && Sorted(b) && multiset(a) == multiset(b) && a != [] && b != []
    ensures Le(a[0], b[0])
  {
    hide Le;
    assert b[0] in multiset(a);
    var j :| 0 <= j < |a| && a[j] == b[0];
    LeTotal(a[0], a[0]);
  }

  lemma SameRests<T>(a: seq<T>, b: seq<T>)
    requires a != [] && b != [] && a[0] == b[0] && multiset(a) == multiset(b)
    ensures multiset(a[1..]) == multiset(b[1..])
  {
    RemoveSame(a, 0, b, 0);
    assert a[..0] + a[0 + 1..] == a[1..] && b[..0] + b[0 + 1..] == b[1..];
  }

  /** There is one sorted arrangement of a multiset, whatever sorts it. */
  lemma {:induction false} SortedIsUnique(a: seq<string>, b: seq<string>)
    requires Sorted(a) && Sorted(b) && multiset(a) == multiset(b)
    ensures a == b
  {
    hide Le;
    assert |multiset(a)| == |multiset(b)| == |a| == |b|;
    if a != [] {
      SmallestFirst(a, b);
      SmallestFirst(b, a);
      LeAntisymmetric(a[0], b[0]);
      SameRests(a, b);
      SortedIsUnique(a[1..], b[1..]);
      assert a == [a[0]] + a[1..] && b == [b[0]] + b[1..];
    }
  }

  // ---------- joining ----------

  function JoinKeys(keys: seq<string>): string {
    if keys == [] then "" else if |keys| == 1 then keys[0] else keys[0] + "|" + JoinKeys(keys[1..])
  }

  predicate Joinable(keys: seq<string>) {
    forall k :: 0 <= k < |keys| ==> keys[k] != "" && Without(keys[k], '|')
  }

  /** Up to the first bar there is only one way to read a joined text. */
  lemma FirstKey(x: string, y: string, s: string, t: string)
    requires Without(x, '|') && Without(y, '|')
    requires x + "|" + s == y + "|" + t
    ensures x == y && s == t
  {
    var u := x + "|" + s;
    assert u[|x|] == '|' && u[|y|] == '|';
    assert forall k :: 0 <= k < |x| ==> u[k] == x[k];
    assert forall k :: 0 <= k < |y| ==> u[k] == y[k];
    assert |x| == |y|;
    assert x == u[..|x|] == y && s == u[|x| + 1..] == t;
  }

  lemma OneKeyIsNotMore(x: string, y: string, t: string)
    requires Without(x, '|')
    ensures x != y + "|" + t
  {
    assert (y + "|" + t)[|y|] == '|';
  }

  lemma {:induction false} JoinIsInjective(a: seq<string>, b: seq<string>)
    requires Joinable(a) && Joinable(b) && JoinKeys(a) == JoinKeys(b)
    ensures a == b
  {
    if a == [] || b == [] {
    } else if |a| == 1 || |b| == 1 {
      if |b| > 1 { OneKeyIsNotMore(a[0], b[0], JoinKeys(b[1..])); }
      if |a| > 1 { OneKeyIsNotMore(b[0], a[0], JoinKeys(a[1..])); }
    } else {
      FirstKey(a[0], b[0], JoinKeys(a[1..]), JoinKeys(b[1..]));
      JoinIsInjective(a[1..], b[1..]);
      assert a == [a[0]] + a[1..] && b == [b[0]] + b[1..];
    }
  }

  // ---------- the signature ----------

  function Signature(pairs: seq<Pair>): string {
    JoinKeys(Sort(Keys(pairs)))
  }

  lemma KeySplits(p: Pair, q: Pair)
    requires Without(p.id, ':') && Without(q.id, ':') && Key(p) == Key(q)
    ensures p == q
  {
    var u := Key(p);
    assert u[|p.id|] == ':' && u[|q.id|] == ':';
    assert forall k :: 0 <= k < |p.id| ==> u[k] == p.id[k];
    assert forall k :: 0 <= k < |q.id| ==> u[k] == q.id[k];
    assert |p.id| == |q.id|;
    assert p.id == u[..|p.id|] == q.id && p.version == u[|p.id| + 1..] == q.version;
  }

  lemma PlainKey(p: Pair)
    requires Plain(p)
    ensures Key(p) != "" && Without(Key(p), '|')
  {
  }

  lemma KeysSnoc(pairs: seq<Pair>, p: Pair)
    ensures Keys(pairs + [p]) == Keys(pairs) + [Key(p)]
  {
  }

  lemma {:induction false} PlainCounts(pairs: seq<Pair>, p: Pair)
    requires AllPlain(pairs) && Plain(p)
    ensures multiset(Keys(pairs))[Key(p)] == multiset(pairs)[p]
  {
    if pairs != [] {
      var before, q := pairs[..|pairs| - 1], pairs[|pairs| - 1];
      PlainCounts(before, p);
      assert pairs == before + [q];
      KeysSnoc(before, q);
      if Key(p) == Key(q) { KeySplits(p, q); }
    }
  }

  /** Equal multisets of keys sign alike: reordering elements changes nothing. */
  lemma SameKeysSignAlike(a: seq<Pair>, b: seq<Pair>)
    requires multiset(Keys(a)) == multiset(Keys(b))
    ensures Signature(a) == Signature(b)
  {
    SortSorts(Keys(a));
    SortSorts(Keys(b));
    SortedIsUnique(Sort(Keys(a)), Sort(Keys(b)));
  }

  lemma KeysWithout(pairs: seq<Pair>, i: nat)
    requires i < |pairs|
    ensures multiset(Keys(pairs)) == multiset{Key(pairs[i])} + multiset(Keys(pairs[..i] + pairs[i + 1..]))
  {
    RemoveAt(Keys(pairs), i);
    hide Key;
    assert Keys(pairs)[..i] + Keys(pairs)[i + 1..] == Keys(pairs[..i] + pairs[i + 1..]);
  }

  lemma {:induction false} SamePairsSameKeys(a: seq<Pair>, b: seq<Pair>)
    requires multiset(a) == multiset(b)
    ensures multiset(Keys(a)) == multiset(Keys(b))
  {
    hide Key, Keys;
    assert |multiset(a)| == |multiset(b)| == |a| == |b|;
    if a == [] {
      assert a == b;
    } else {
      assert a[0] in multiset(b);
      var i :| 0 <= i < |b| && b[i] == a[0];
      var more, rest := a[..0] + a[0 + 1..], b[..i] + b[i + 1..];
      RemoveSame(a, 0, b, i);
      SamePairsSameKeys(more, rest);
      KeysWithout(a, 0);
      KeysWithout(b, i);
    }
  }

  lemma SortedKeysAreJoinable(pairs: seq<Pair>)
    requires AllPlain(pairs)
    ensures Joinable(Sort(Keys(pairs)))
  {
    SortSorts(Keys(pairs));
    var sorted := Sort(Keys(pairs));
    forall k | 0 <= k < |sorted| ensures sorted[k] != "" && Without(sorted[k], '|') {
      assert sorted[k] in multiset(Keys(pairs));
      var i :| 0 <= i < |pairs| && Keys(pairs)[i] == sorted[k];
      PlainKey(pairs[i]);
    }
  }

  lemma SameKeysSamePairs(a: seq<Pair>, b: seq<Pair>)
    requires AllPlain(a) && AllPlain(b) && multiset(Keys(a)) == multiset(Keys(b))
    ensures multiset(a) == multiset(b)
  {
    forall p ensures multiset(a)[p] == multiset(b)[p] {
      if Plain(p) {
        PlainCounts(a, p);
        PlainCounts(b, p);
      }
    }
  }

  /** The signature check amounts to equality of multisets: two bases sign alike
      exactly when they have the same (id, version) pairs equally often. */
  lemma SignatureIsMultisetEquality(a: seq<Pair>, b: seq<Pair>)
    requires AllPlain(a) && AllPlain(b)
    ensures Signature(a) == Signature(b) <==> multiset(a) == multiset(b)
  {
    if multiset(a) == multiset(b) {
      SamePairsSameKeys(a, b);
      SameKeysSignAlike(a, b);
    }
    if Signature(a) == Signature(b) {
      SortedKeysAreJoinable(a);
      SortedKeysAreJoinable(b);
      JoinIsInjective(Sort(Keys(a)), Sort(Keys(b)));
      SortSorts(Keys(a));
      SortSorts(Keys(b));
      SameKeysSamePairs(a, b);
    }
  }

  // ---------- when the delimiters are not left alone ----------

  predicate OneColonAtMost(s: string) {
    forall i, j :: 0 <= i < |s| && 0 <= j < |s| && s[i] == ':' && s[j] == ':' ==> i == j
  }

  predicate HasColon(s: string) {
    exists i :: 0 <= i < |s| && s[i] == ':'
  }

  lemma SingleSignature(p: Pair)
    ensures Signature([p]) == Key(p)
  {
    hide Key;
    assert Keys([p]) == [Key(p)];
    assert [Key(p)][1..] == [];
    assert Sort([Key(p)]) == Insert(Key(p), []) == [Key(p)];
  }

  lemma JoinedColon(key: string, keys: seq<string>)
    requires HasColon(key)
    ensures HasColon(JoinKeys([key] + keys))
  {
    var i :| 0 <= i < |key| && key[i] == ':';
    assert ([key] + keys)[1..] == keys;
    assert JoinKeys([key] + keys)[i] == ':';
  }

  lemma TwoKeysTwoColons(x: string, y: string, keys: seq<string>)
    requires HasColon(x) && HasColon(y)
    ensures !OneColonAtMost(JoinKeys([x, y] + keys))
  {
    JoinedColon(y, keys);
    var rest := JoinKeys([y] + keys);
    assert ([x, y] + keys)[1..] == [y] + keys;
    var i :| 0 <= i < |x| && x[i] == ':';
    var j :| 0 <= j < |rest| && rest[j] == ':';
    var s := JoinKeys([x, y] + keys);
    assert s == x + "|" + rest;
    assert s[i] == ':' && s[|x| + 1 + j] == ':';
  }

  lemma OneColonOnePair(a: seq<Pair>)
    requires OneColonAtMost(Signature(a))
    ensures |a| <= 1
  {
    if |a| > 1 {
      var sorted := Sort(Keys(a));
      SortSorts(Keys(a));
      assert |multiset(sorted)| == |sorted| == |a|;
      KeysHaveColons(a, sorted, 0);
      KeysHaveColons(a, sorted, 1);
      assert sorted == [sorted[0], sorted[1]] + sorted[2..];
      TwoKeysTwoColons(sorted[0], sorted[1], sorted[2..]);
    }
  }

  lemma KeysHaveColons(a: seq<Pair>, sorted: seq<string>, k: nat)
    requires multiset(sorted) == multiset(Keys(a)) && k < |sorted|
    ensures HasColon(sorted[k])
  {
    assert sorted[k] in multiset(Keys(a));
    var i :| 0 <= i < |a| && Keys(a)[i] == sorted[k];
    assert Key(a[i])[|a[i].id|] == ':';
  }

  lemma EmptySignature(a: seq<Pair>)
    requires |a| <= 1
    ensures Signature(a) == "" <==> a == []
  {
    if a != [] {
      SingleSignature(a[0]);
      assert a == [a[0]];
    }
  }

  lemma OneColonPinsBase(a: seq<Pair>, b: seq<Pair>)
    requires OneColonAtMost(Signature(a)) && Signature(a) == Signature(b)
    ensures a == b
  {
    OneColonOnePair(a);
    OneColonOnePair(b);
    EmptySignature(a);
    EmptySignature(b);
    if a != [] {
      var p, q := a[0], b[0];
      assert a == [p] && b == [q];
      SingleSignature(p);
      SingleSignature(q);
      var u := Key(p);
      assert u[|p.id|] == ':' && u[|q.id|] == ':';
      assert p.id == u[..|p.id|] && p.version == u[|p.id| + 1..];
      assert q.id == u[..|q.id|] && q.version == u[|q.id| + 1..];
    }
  }

  lemma CutAtColon(s: string, i: nat) returns (p: Pair)
    requires i < |s| && s[i] == ':'
    ensures Signature([p]) == s && p == Pair(s[..i], s[i + 1..])
  {
    p := Pair(s[..i], s[i + 1..]);
    SingleSignature(p);
    assert Key(p) == s;
  }

  lemma AmbiguousSignature(s: string) returns (p: Pair, q: Pair)
    requires !OneColonAtMost(s)
    ensures p != q && Signature([p]) == s && Signature([q]) == s
  {
    var i, j :| 0 <= i < |s| && 0 <= j < |s| && s[i] == ':' && s[j] == ':' && i != j;
    p := CutAtColon(s, i);
    q := CutAtColon(s, j);
    assert |p.id| != |q.id|;
  }

  /** With ids that hold delimiters the signature is ambiguous. It tells a base from
      every other base exactly when the signature holds at most one colon: when the
      base is empty, or is one element whose id and version hold no colon. */
  lemma SignaturePinsBaseExactly(a: seq<Pair>)
    ensures (forall b :: Signature(a) == Signature(b) ==> multiset(a) == multiset(b))
       <==> OneColonAtMost(Signature(a))
  {
    if OneColonAtMost(Signature(a)) {
      forall b | Signature(a) == Signature(b) ensures multiset(a) == multiset(b) {
        OneColonPinsBase(a, b);
      }
    } else {
      var p, q := AmbiguousSignature(Signature(a));
      assert p in multiset([p]) && p !in multiset([q]);
    }
  }

  // ---------- the gate ----------

  datatype Tier = Read | Comment | Edit

  datatype Reason = ReadOnlyShare | InvalidScene | UnparseableScene | BaseModified

  datatype Verdict = Rejected(reason: Reason) | Accepted(scene: Scene) | Threw

  /** Reading the id of a null element throws. */
  datatype Signing = NoSignature | Throws | Signed(text: string)

  function BaseSignature(scene: Scene): Signing {
    if scene.Malformed? then NoSignature
    else if NullElement in Elements(scene) then Throws
    else Signed(Signature(Base(Elements(scene))))
  }

  function Enforced(prev: Scene, next: Scene, tier: Tier): Verdict {
    if tier.Read? then Rejected(ReadOnlyShare)
    else match Sanitized(next)
      case None => Rejected(InvalidScene)
      case Some(clean) =>
        if tier.Edit? then Accepted(clean)
        else
          var prevSig, nextSig := BaseSignature(prev), BaseSignature(clean);
          if prevSig.Throws? || nextSig.Throws? then Threw
          else if prevSig.NoSignature? || nextSig.NoSignature? then Rejected(UnparseableScene)
          else if prevSig != nextSig then Rejected(BaseModified)
          else Accepted(clean)
  }

  method EnforceCanvasTier(prev: Scene, next: Scene, tier: Tier) returns (verdict: Verdict)
    ensures verdict == Enforced(prev, next, tier)
  {
    if tier.Read? { return Rejected(ReadOnlyShare); }
    var clean, dropped, stripped := SanitizeCanvasScene(next);
    if clean.None? { return Rejected(InvalidScene); }
    if tier.Edit? { return Accepted(clean.value); }
    var prevSig := BaseSignature(prev);
    if prevSig.Throws? { return Threw; }
    var nextSig := BaseSignature(clean.value);
    if nextSig.Throws? { return Threw; }
    if prevSig.NoSignature? || nextSig.NoSignature? { return Rejected(UnparseableScene); }
    if prevSig != nextSig { return Rejected(BaseModified); }
    return Accepted(clean.value);
  }

  lemma CleanedHasNoNull(next: Scene)
    requires Sanitized(next).Some?
    ensures NullElement !in Elements(Sanitized(next).value) && !Sanitized(next).value.Malformed?
  {
    if next.Document? { CleanedIsClean(Elements(next)); }
  }

  /** A comment write is accepted exactly when both scenes can be read and the
      sanitized proposal has the base of the scene before it, as a multiset. */
  lemma CommentAcceptsExactly(prev: Scene, next: Scene)
    requires AllPlain(Base(Elements(prev)))
    requires Sanitized(next).Some? ==> AllPlain(Base(Elements(Sanitized(next).value)))
    ensures Enforced(prev, next, Comment).Accepted?
       <==> && !prev.Malformed? && NullElement !in Elements(prev) && Sanitized(next).Some?
            && multiset(Base(Elements(prev))) == multiset(Base(Elements(Sanitized(next).value)))
    ensures Enforced(prev, next, Comment).Accepted? ==> Sanitized(next) == Some(Enforced(prev, next, Comment).scene)
  {
    hide Base, Signature, Sanitized, Elements, AllPlain, Plain;
    if Sanitized(next).Some? {
      CleanedHasNoNull(next);
      SignatureIsMultisetEquality(Base(Elements(prev)), Base(Elements(Sanitized(next).value)));
    }
  }

  /** The base itself: the elements that are not annotations, with all they hold. */
  function BaseElements(elements: seq<Element>): seq<Element> {
    if elements == [] then []
    else
      var e := elements[|elements| - 1];
      BaseElements(elements[..|elements| - 1]) + if e.Object? && e.annotation then [] else [e]
  }

  lemma {:induction false} BaseIsOfBaseElements(elements: seq<Element>)
    requires NullElement !in elements
    ensures |BaseElements(elements)| == |Base(elements)|
  {
    if elements != [] { BaseIsOfBaseElements(elements[..|elements| - 1]); }
  }

  /** A scene of one base element, which is drawn as `kind` says. */
  function Drawn(p: Pair, kind: Option<string>): Scene {
    Document(Some([Object(p.id, p.version, kind, NoLink, false)]), "")
  }

  lemma DrawnBase(p: Pair, kind: Option<string>)
    requires !Forbidden(kind)
    ensures Sanitized(Drawn(p, kind)) == Some(Drawn(p, kind)) && Base(Elements(Drawn(p, kind))) == [p]
    ensures NullElement !in Elements(Drawn(p, kind))
    ensures BaseElements(Elements(Drawn(p, kind))) == [Object(p.id, p.version, kind, NoLink, false)]
  {
    hide Cleaned, Base, IsSafeLink;
    var e := Object(p.id, p.version, kind, NoLink, false);
    CleanIsKept([e]);
    BaseSnoc([], e);
    NoBase();
    assert [] + [e] == [e] && [] + [p] == [p];
    assert [e][..0] == [];
  }

  lemma DrawnIsAccepted(prev: Scene, p: Pair, kind: Option<string>)
    requires !prev.Malformed? && NullElement !in Elements(prev) && !Forbidden(kind)
    requires Signature([p]) == Signature(Base(Elements(prev)))
    ensures Enforced(prev, Drawn(p, kind), Comment) == Accepted(Drawn(p, kind))
  {
    DrawnBase(p, kind);
    hide Signature, Base, Sanitized, Elements;
  }

  ghost predicate GateKeepsBase(prev: Scene) {
    forall next :: Enforced(prev, next, Comment).Accepted? ==>
      multiset(Base(Elements(Enforced(prev, next, Comment).scene))) == multiset(Base(Elements(prev)))
  }

  lemma AcceptedSignsAlike(prev: Scene, next: Scene)
    requires Enforced(prev, next, Comment).Accepted?
    ensures Signature(Base(Elements(Enforced(prev, next, Comment).scene))) == Signature(Base(Elements(prev)))
  {}

  /** For ids of any form: every comment write that the gate accepts keeps the base of
      the scene before it exactly when that base signs with at most one colon. With
      two or more elements in the base some accepted write replaces it. */
  lemma GateKeepsBaseExactly(prev: Scene)
    requires !prev.Malformed? && NullElement !in Elements(prev)
    ensures GateKeepsBase(prev) <==> OneColonAtMost(Signature(Base(Elements(prev))))
  {
    hide Signature, Base, Enforced, OneColonAtMost;
    var base := Base(Elements(prev));
    if OneColonAtMost(Signature(base)) {
      forall next | Enforced(prev, next, Comment).Accepted?
        ensures multiset(Base(Elements(Enforced(prev, next, Comment).scene))) == multiset(base)
      {
        AcceptedSignsAlike(prev, next);
        OneColonPinsBase(base, Base(Elements(Enforced(prev, next, Comment).scene)));
      }
    } else {
      var p, q := AmbiguousSignature(Signature(base));
      DrawnIsAccepted(prev, p, None);
      DrawnIsAccepted(prev, q, None);
      DrawnBase(p, None);
      DrawnBase(q, None);
      assert p in multiset([p]) && p !in multiset([q]);
    }
  }

  lemma BaseOfTwo(a: Element, b: Element)
    requires a.Object? && b.Object? && !a.annotation && !b.annotation
    ensures Base([a, b]) == [Pair(a.id, a.version), Pair(b.id, b.version)]
  {
    hide Base;
    NoBase();
    BaseSnoc([], a);
    BaseSnoc([a], b);
    assert [] + [a] == [a] && [a] + [b] == [a, b];
  }

  /** The gate accepts a write that makes one element of two. */
  lemma GateAcceptsAChangedBase()
    ensures var a, b := Object("a", "1", None, NoLink, false), Object("b", "2", None, NoLink, false);
            var prev, next := Document(Some([a, b]), ""), Drawn(Pair("a:1|b", "2"), None);
            Enforced(prev, next, Comment) == Accepted(next)
            && |Base(Elements(prev))| == 2 && |Base(Elements(next))| == 1
  {
    hide Base, Signature, Enforced, Drawn;
    var a, b := Object("a", "1", None, NoLink, false), Object("b", "2", None, NoLink, false);
    var prev, p := Document(Some([a, b]), ""), Pair("a:1|b", "2");
    BaseOfTwo(a, b);
    SignsAsOne();
    DrawnBase(p, None);
    DrawnIsAccepted(prev, p, None);
  }

  lemma SignsAsOne()
    ensures Signature([Pair("a", "1"), Pair("b", "2")]) == Signature([Pair("a:1|b", "2")])
  {
    var pairs := [Pair("a", "1"), Pair("b", "2")];
    assert Key(pairs[0]) == "a:1" && Key(pairs[1]) == "b:2";
    assert Keys(pairs) == ["a:1", "b:2"];
    assert ["a:1", "b:2"][1..] == ["b:2"] && ["b:2"][1..] == [];
    assert Sort(["b:2"]) == ["b:2"];
    assert Sort(["a:1", "b:2"]) == ["a:1", "b:2"];
    assert JoinKeys(["a:1", "b:2"]) == "a:1|b:2";
    SingleSignature(Pair("a:1|b", "2"));
  }

  /** Every accepted comment write leaves the base elements as they are. */
  ghost predicate GateKeepsElements(prev: Scene) {
    forall next :: Enforced(prev, next, Comment).Accepted? ==>
      multiset(BaseElements(Elements(Enforced(prev, next, Comment).scene))) == multiset(BaseElements(Elements(prev)))
  }

  lemma SignatureHasColon(pairs: seq<Pair>)
    requires pairs != []
    ensures HasColon(Signature(pairs))
  {
    var sorted := Sort(Keys(pairs));
    SortSorts(Keys(pairs));
    assert |multiset(sorted)| == |sorted| == |pairs|;
    KeysHaveColons(pairs, sorted, 0);
    assert sorted == [sorted[0]] + sorted[1..];
    JoinedColon(sorted[0], sorted[1..]);
  }

  /** With nothing in the base, an accepted scene has nothing in its base. */
  lemma EmptyBaseStaysEmpty(prev: Scene, next: Scene)
    requires Base(Elements(prev)) == [] && Enforced(prev, next, Comment).Accepted?
    ensures Base(Elements(Enforced(prev, next, Comment).scene)) == []
  {
    AcceptedSignsAlike(prev, next);
    hide Signature, Base, Enforced;
    var base := Base(Elements(Enforced(prev, next, Comment).scene));
    EmptySignature([]);
    if base != [] {
      SignatureHasColon(base);
    }
  }

  /** The gate looks at ids and versions only, so it keeps the base elements themselves
      exactly when there are none: any base can be rewritten under unchanged ids and
      versions. Plain ids pin the pairs, never what is drawn. */
  lemma GateKeepsElementsExactly(prev: Scene)
    requires !prev.Malformed? && NullElement !in Elements(prev)
    ensures GateKeepsElements(prev) <==> Base(Elements(prev)) == []
  {
    hide Signature, Base, BaseElements, Enforced, Elements, Forbidden, Drawn;
    var base := Base(Elements(prev));
    BaseIsOfBaseElements(Elements(prev));
    if base == [] {
      forall next | Enforced(prev, next, Comment).Accepted?
        ensures multiset(BaseElements(Elements(Enforced(prev, next, Comment).scene))) == multiset(BaseElements(Elements(prev)))
      {
        EmptyBaseStaysEmpty(prev, next);
        AcceptedHasNoNull(prev, next);
        BaseIsOfBaseElements(Elements(Enforced(prev, next, Comment).scene));
      }
    } else {
      SignatureHasColon(base);
      var i :| 0 <= i < |Signature(base)| && Signature(base)[i] == ':';
      var p := CutAtColon(Signature(base), i);
      TwoWritesDiffer(prev, p);
    }
  }

  lemma AcceptedHasNoNull(prev: Scene, next: Scene)
    requires Enforced(prev, next, Comment).Accepted?
    ensures NullElement !in Elements(Enforced(prev, next, Comment).scene)
  {
    CleanedHasNoNull(next);
  }

  lemma TwoWritesDiffer(prev: Scene, p: Pair)
    requires !prev.Malformed? && NullElement !in Elements(prev)
    requires Signature([p]) == Signature(Base(Elements(prev)))
    ensures !GateKeepsElements(prev)
  {
    var image := Some("image");
    DrawnIsAccepted(prev, p, None);
    DrawnIsAccepted(prev, p, image);
    DrawnBase(p, None);
    DrawnBase(p, image);
    hide Signature, Base, BaseElements, Enforced, Elements;
    var x, y := Object(p.id, p.version, None, NoLink, false), Object(p.id, p.version, image, NoLink, false);
    assert x in multiset([x]) && x !in multiset([y]);
    assert Enforced(prev, Drawn(p, None), Comment).Accepted? && Enforced(prev, Drawn(p, image), Comment).Accepted?;
  }

  /** The gate accepts a comment write that redraws a base element with a plain id. */
  lemma GateAcceptsARedrawnElement()
    ensures var prev, next := Drawn(Pair("a", "1"), None), Drawn(Pair("a", "1"), Some("image"));
            && PlainScene(prev) && PlainScene(next) && Enforced(prev, next, Comment) == Accepted(next)
            && BaseElements(Elements(prev)) != BaseElements(Elements(next))
  {
    var p := Pair("a", "1");
    DrawnBase(p, None);
    DrawnBase(p, Some("image"));
    DrawnIsAccepted(Drawn(p, None), p, Some("image"));
  }

  /** Whatever is accepted, at any tier, is a fixed point of the sanitizer. */
  lemma AcceptedIsSanitized(prev: Scene, next: Scene, tier: Tier)
    requires Enforced(prev, next, tier).Accepted?
    ensures Sanitized(Enforced(prev, next, tier).scene) == Some(Enforced(prev, next, tier).scene)
  {
    SanitizingIsIdempotent(next);
  }

  // ---------- the other tiers, and the reasons ----------

  /** A reader writes nothing, whatever is proposed. */
  lemma ReadersAreRejected(prev: Scene, next: Scene)
    ensures Enforced(prev, next, Read) == Rejected(ReadOnlyShare)
  {}

  /** An editor writes whatever can be sanitized, as it is when sanitized, and whatever
      the scene before it was. */
  lemma EditorsAreAcceptedExactly(prev: Scene, next: Scene)
    ensures Enforced(prev, next, Edit)
         == match Sanitized(next)
            case Some(clean) => Accepted(clean)
            case None => Rejected(InvalidScene)
    ensures Sanitized(next).None? <==> next.Malformed? || next.NotAnObject?
  {}

  /** Why a comment is not accepted: the proposal cannot be read, the scene before it
      holds a null element, or cannot be read, or the bases sign differently. */
  lemma CommentReasons(prev: Scene, next: Scene)
    ensures var verdict := Enforced(prev, next, Comment);
            && (next.Malformed? || next.NotAnObject? <==> verdict == Rejected(InvalidScene))
            && (Sanitized(next).Some? ==>
                  && (NullElement in Elements(prev) <==> verdict == Threw)
                  && (prev.Malformed? <==> verdict == Rejected(UnparseableScene))
                  && (verdict == Rejected(BaseModified)
                      <==> !prev.Malformed? && NullElement !in Elements(prev)
                           && Signature(Base(Elements(prev))) != Signature(Base(Elements(Sanitized(next).value)))))
  {
    if Sanitized(next).Some? { CleanedHasNoNull(next); }
    hide Signature, Base;
  }

  /** A stored element that is a bare value signs as the reading of its members prints. */
  lemma ScalarsSign()
    ensures Base([ScalarElement]) == [Pair("undefined", "")]
  {
    NoBase();
    BaseSnoc([], ScalarElement);
    assert [] + [ScalarElement] == [ScalarElement];
  }

  // ---------- runs of guest writes ----------

  datatype Proposal = Proposal(tier: Tier, scene: Scene)

  /** The scene after some proposals, each judged against the one accepted before it. */
  function After(start: Scene, proposals: seq<Proposal>): Scene {
    if proposals == [] then start
    else
      var prev, p := After(start, proposals[..|proposals| - 1]), proposals[|proposals| - 1];
      match Enforced(prev, p.scene, p.tier)
      case Accepted(scene) => scene
      case Rejected(_) => prev
      case Threw => prev
  }

  predicate NobodyEdits(proposals: seq<Proposal>) {
    forall k :: 0 <= k < |proposals| ==> !proposals[k].tier.Edit?
  }

  /** Over any run of guest writes below the edit tier the signature of the base
      never changes, whatever the guests propose. */
  lemma {:induction false} GuestsKeepSignature(start: Scene, proposals: seq<Proposal>)
    requires NobodyEdits(proposals)
    ensures BaseSignature(After(start, proposals)) == BaseSignature(start)
  {
    if proposals != [] {
      GuestsKeepSignature(start, proposals[..|proposals| - 1]);
    }
  }

  lemma BaseSnoc(elements: seq<Element>, e: Element)
    ensures Base(elements + [e]) == Base(elements) + Pairs(e)
  {
    assert (elements + [e])[..|elements|] == elements;
  }

  lemma {:induction false} CleanedStaysPlain(elements: seq<Element>)
    requires AllPlain(Base(elements))
    ensures AllPlain(Base(Cleaned(elements)))
  {
    hide Plain, Base;
    if elements == [] {
      NoBase();
    } else {
      var before, e := elements[..|elements| - 1], elements[|elements| - 1];
      assert elements == before + [e];
      BaseSnoc(before, e);
      assert AllPlain(Base(before)) && AllPlain(Pairs(e)) by { PlainParts(Base(before), Pairs(e)); }
      CleanedStaysPlain(before);
      SurvivingSnoc(before, e);
      if Survives(e) {
        BaseSnoc(Cleaned(before), Strip(e));
        PlainParts(Base(Cleaned(before)), Pairs(Strip(e)));
      } else {
        assert Cleaned(before) + [] == Cleaned(before);
      }
    }
  }

  lemma NoBase()
    ensures Base([]) == []
  {
  }

  lemma PlainParts(a: seq<Pair>, b: seq<Pair>)
    ensures AllPlain(a + b) <==> AllPlain(a) && AllPlain(b)
  {
    hide Plain;
    if AllPlain(a + b) {
      assert forall k :: 0 <= k < |a| ==> a[k] == (a + b)[k];
      assert forall k :: 0 <= k < |b| ==> b[k] == (a + b)[|a| + k];
    }
  }

  predicate PlainScene(scene: Scene) {
    AllPlain(Base(Elements(scene)))
  }

  lemma {:induction false} RunsStayPlain(start: Scene, proposals: seq<Proposal>)
    requires PlainScene(start) && forall k :: 0 <= k < |proposals| ==> PlainScene(proposals[k].scene)
    ensures PlainScene(After(start, proposals))
  {
    hide Base, AllPlain;
    if proposals != [] {
      var p := proposals[|proposals| - 1];
      RunsStayPlain(start, proposals[..|proposals| - 1]);
      CleanedStaysPlain(Elements(p.scene));
    }
  }

  /** ... and when ids and versions are plain, the multiset of (id, version) pairs of
      the base never changes. */
  lemma GuestsKeepBase(start: Scene, proposals: seq<Proposal>)
    requires NobodyEdits(proposals) && NullElement !in Elements(start) && !start.Malformed?
    requires PlainScene(start) && forall k :: 0 <= k < |proposals| ==> PlainScene(proposals[k].scene)
    ensures multiset(Base(Elements(After(start, proposals)))) == multiset(Base(Elements(start)))
  {
    hide Base, AllPlain, Signature, After;
    GuestsKeepSignature(start, proposals);
    RunsStayPlain(start, proposals);
    SignatureIsMultisetEquality(Base(Elements(After(start, proposals))), Base(Elements(start)));
  }

  predicate OnlyReaders(proposals: seq<Proposal>) {
    forall k :: 0 <= k < |proposals| ==> proposals[k].tier == Read
  }

  /** A run of readers leaves the scene as it was. */
  lemma {:induction false} ReadersChangeNothing(start: Scene, proposals: seq<Proposal>)
    requires OnlyReaders(proposals)
    ensures After(start, proposals) == start
  {
    if proposals != [] {
      ReadersChangeNothing(start, proposals[..|proposals| - 1]);
      ReadersAreRejected(start, proposals[|proposals| - 1].scene);
    }
  }

  /** At every tier, the scene of a run that accepted anything is sanitized. */
  lemma {:induction false} RunsStaySanitized(start: Scene, proposals: seq<Proposal>)
    ensures After(start, proposals) == start || Sanitized(After(start, proposals)) == Some(After(start, proposals))
  {
    if proposals != [] {
      var prev, p := After(start, proposals[..|proposals| - 1]), proposals[|proposals| - 1];
      RunsStaySanitized(start, proposals[..|proposals| - 1]);
      if Enforced(prev, p.scene, p.tier).Accepted? { AcceptedIsSanitized(prev, p.scene, p.tier); }
    }
  }
}
