/**
 * The scene sanitizer: forbidden elements are dropped, unsafe links are nulled.
 *
 * A scene is what `JSON.parse` makes of it; an element keeps the members that
 * the sanitizer and the tier gate look at.
 */
module CanvasSanitize {
  import opened Wrappers
  import opened Ascii

  datatype Link = NoLink | NullLink | TextLink(text: string) | OtherLink

  /** `id` and `version` are the printed members; an absent or null version prints
      as nothing. `kind` is the `type` member when that is a string. */
  datatype Element =
    | NullElement
    | ScalarElement
    | Object(id: string, version: string, kind: Option<string>, link: Link, annotation: bool)

  /** `elements` is present when the member is an array; `rest` stands for all other
      members. Serializing an array document leaves out the member set on it. */
  datatype Scene = Malformed | NotAnObject | ArrayDocument | Document(elements: Option<seq<Element>>, rest: string)

  function Elements(scene: Scene): seq<Element> {
    if scene.Document? then scene.elements.GetOr([]) else []
  }

  // ---------- links ----------

  predicate IsBlank(c: char) {
    c in "\t\n\r \U{0B}\U{0C}\U{A0}\U{1680}\U{2028}\U{2029}\U{202F}\U{205F}\U{3000}\U{FEFF}"
    || '\U{2000}' <= c <= '\U{200A}'
  }

  function TrimStart(s: string): string {
    if s != "" && IsBlank(s[0]) then TrimStart(s[1..]) else s
  }

  function TrimEnd(s: string): string {
    if s != "" && IsBlank(s[|s| - 1]) then TrimEnd(s[..|s| - 1]) else s
  }

  function LowerAll(s: string): (r: string)
    ensures |r| == |s|
  {
    seq(|s|, i requires 0 <= i < |s| => Lower(s[i]))
  }

  predicate IsSafeLink(link: Link) {
    link.TextLink? &&
    var v := LowerAll(TrimEnd(TrimStart(link.text)));
    "http://" <= v || "https://" <= v || "/" <= v
  }

  predicate Unsafe(link: Link) {
    !link.NoLink? && !link.NullLink? && !IsSafeLink(link)
  }

  lemma {:induction false} TrimEndKeepsVisiblePrefix(s: string, n: nat)
    requires n <= |s| && forall k :: 0 <= k < n ==> !IsBlank(s[k])
    ensures n <= |TrimEnd(s)| && TrimEnd(s) <= s
  {
    if s != "" && IsBlank(s[|s| - 1]) {
      TrimEndKeepsVisiblePrefix(s[..|s| - 1], n);
    }
  }

  lemma LowerBlank(c: char)
    ensures IsBlank(Lower(c)) <==> IsBlank(c)
  {
  }

  lemma PrefixSurvivesTrimEnd(s: string, prefix: string)
    requires forall k :: 0 <= k < |prefix| ==> !IsBlank(prefix[k])
    ensures prefix <= LowerAll(TrimEnd(s)) <==> prefix <= LowerAll(s)
  {
    hide IsBlank, Lower;
    TrimEndKeepsVisiblePrefix(s, 0);
    var t := TrimEnd(s);
    assert forall k :: 0 <= k < |t| ==> LowerAll(t)[k] == LowerAll(s)[k];
    if prefix <= LowerAll(s) {
      forall k | 0 <= k < |prefix| ensures !IsBlank(s[k]) {
        LowerBlank(s[k]);
        assert LowerAll(s)[k] == prefix[k];
      }
      TrimEndKeepsVisiblePrefix(s, |prefix|);
    }
  }

  /** A link is safe exactly when, after leading blanks and up to case, it starts
      with one of the allowed prefixes; any other scheme is unsafe. */
  lemma SafeLinkStartsAllowed(text: string)
    ensures var v := LowerAll(TrimStart(text));
            IsSafeLink(TextLink(text)) <==> "http://" <= v || "https://" <= v || "/" <= v
  {
    hide TrimStart, TrimEnd, LowerAll;
    PrefixSurvivesTrimEnd(TrimStart(text), "http://");
    PrefixSurvivesTrimEnd(TrimStart(text), "https://");
    PrefixSurvivesTrimEnd(TrimStart(text), "/");
  }

  // ---------- the sanitizer ----------

  predicate Forbidden(kind: Option<string>) {
    kind == Some("embeddable") || kind == Some("iframe")
  }

  predicate Survives(e: Element) {
    e.Object? && !Forbidden(e.kind)
  }

  function Strip(e: Element): Element {
    if e.Object? && Unsafe(e.link) then e.(link := NullLink) else e
  }

  /** The elements that survive, in order, with their unsafe links nulled. */
  function Cleaned(elements: seq<Element>): seq<Element> {
    if elements == [] then []
    else
      var e := elements[|elements| - 1];
      Cleaned(elements[..|elements| - 1]) + if Survives(e) then [Strip(e)] else []
  }

  function Surviving(elements: seq<Element>): seq<Element> {
    if elements == [] then []
    else
      var e := elements[|elements| - 1];
      Surviving(elements[..|elements| - 1]) + if Survives(e) then [e] else []
  }

  /** The elements that render embedded content. */
  predicate Embeds(e: Element) {
    e.Object? && e.kind.Some? && (e.kind.value == "embeddable" || e.kind.value == "iframe")
  }

  /** The places where an embed is dropped. */
  function DroppedAt(elements: seq<Element>): set<nat> {
    set i: nat | i < |elements| && Embeds(elements[i])
  }

  /** The link is absent, null, or a text that after leading blanks and up to case
      starts with one of the allowed prefixes. */
  predicate Harmless(link: Link) {
    match link
    case NoLink => true
    case NullLink => true
    case OtherLink => false
    case TextLink(text) =>
      var v := LowerAll(TrimStart(text));
      "http://" <= v || "https://" <= v || "/" <= v
  }

  /** The places where a link is nulled. */
  function StrippedAt(elements: seq<Element>): set<nat> {
    set i: nat | i < |elements| && elements[i].Object? && !Embeds(elements[i]) && !Harmless(elements[i].link)
  }

  function Sanitized(scene: Scene): Option<Scene> {
    match scene
    case Malformed => None
    case NotAnObject => None
    case ArrayDocument => Some(scene)
    case Document(_, rest) => Some(Document(Some(Cleaned(Elements(scene))), rest))
  }

  predicate Clean(elements: seq<Element>) {
    forall k :: 0 <= k < |elements| ==> Survives(elements[k]) && !Unsafe(elements[k].link)
  }

  lemma SurvivingSnoc(elements: seq<Element>, e: Element)
    ensures Surviving(elements + [e]) == Surviving(elements) + if Survives(e) then [e] else []
    ensures Cleaned(elements + [e]) == Cleaned(elements) + if Survives(e) then [Strip(e)] else []
  {
    assert (elements + [e])[..|elements|] == elements;
  }

  lemma {:induction false} CleanedStripsSurviving(elements: seq<Element>)
    ensures |Cleaned(elements)| == |Surviving(elements)|
    ensures forall k :: 0 <= k < |Surviving(elements)| ==>
              Survives(Surviving(elements)[k]) && Cleaned(elements)[k] == Strip(Surviving(elements)[k])
  {
    if elements != [] {
      CleanedStripsSurviving(elements[..|elements| - 1]);
    }
  }

  lemma SurvivesExactly(e: Element)
    ensures Survives(e) <==> e.Object? && !Embeds(e)
  {}

  lemma UnsafeExactly(link: Link)
    ensures Unsafe(link) <==> !Harmless(link)
  {
    if link.TextLink? { SafeLinkStartsAllowed(link.text); }
  }

  /** The filter keeps every element that is an object and no embed, as often as it was
      there, and nothing else. */
  lemma {:induction false} SurvivorsAreKept(elements: seq<Element>, e: Element)
    ensures multiset(Surviving(elements))[e] == if e.Object? && !Embeds(e) then multiset(elements)[e] else 0
  {
    if elements != [] {
      SurvivorsAreKept(elements[..|elements| - 1], e);
      SurvivesExactly(elements[|elements| - 1]);
      assert elements == elements[..|elements| - 1] + [elements[|elements| - 1]];
    }
  }

  lemma NullIsHarmless()
    ensures Harmless(NullLink)
  {}

  /** What is left of a document: the elements that survive, in order, each as it was
      but for a link that is not harmless, which is null. So there are no embeds left,
      and every link left is harmless. */
  lemma CleanedSaysExactly(elements: seq<Element>)
    ensures |Cleaned(elements)| == |Surviving(elements)|
    ensures forall k :: 0 <= k < |Cleaned(elements)| ==>
              var e := Surviving(elements)[k];
              && e.Object? && !Embeds(e)
              && Cleaned(elements)[k] == (if Harmless(e.link) then e else e.(link := NullLink))
              && Harmless(Cleaned(elements)[k].link)
  {
    CleanedStripsSurviving(elements);
    hide Harmless, Unsafe;
    assert forall link: Link :: Harmless(link) <==> !Unsafe(link) by {
      forall link: Link ensures Harmless(link) <==> !Unsafe(link) { UnsafeExactly(link); }
    }
    NullIsHarmless();
  }

  /** A leading blank does not matter: a space, a tab, a line break or a no-break space,
      say. */
  lemma BlanksDoNotMatter(blank: char, text: string)
    requires blank in " \t\n\r\U{A0}\U{FEFF}"
    ensures IsSafeLink(TextLink([blank] + text)) <==> IsSafeLink(TextLink(text))
  {
    SafeLinkStartsAllowed([blank] + text);
    SafeLinkStartsAllowed(text);
    assert IsBlank(blank);
    assert ([blank] + text)[0] == blank && ([blank] + text)[1..] == text;
    hide IsBlank, LowerAll, IsSafeLink;
    assert TrimStart([blank] + text) == TrimStart(text);
  }

  predicate SameButForCase(s: string, t: string) {
    |s| == |t| && forall k :: 0 <= k < |s| ==> s[k] == t[k] || ('A' <= s[k] <= 'Z' && t[k] as int == s[k] as int + 32)
  }

  lemma {:induction false} TrimStartKeepsCase(s: string, t: string)
    requires SameButForCase(s, t)
    ensures SameButForCase(TrimStart(s), TrimStart(t))
  {
    if s != "" && IsBlank(s[0]) {
      assert s[0] == t[0];
      TrimStartKeepsCase(s[1..], t[1..]);
    } else if s != "" {
      LetterIsNoBlank(s[0]);
      LetterIsNoBlank(t[0]);
    }
  }

  lemma LetterIsNoBlank(c: char)
    ensures 'A' <= c <= 'Z' || 'a' <= c <= 'z' ==> !IsBlank(c)
  {}

  lemma LoweredAlike(s: string, t: string)
    requires SameButForCase(s, t)
    ensures LowerAll(s) == LowerAll(t)
  {
    assert forall k :: 0 <= k < |s| ==> LowerAll(s)[k] == LowerAll(t)[k];
  }

  /** Case does not matter. */
  lemma CaseDoesNotMatter(s: string, t: string)
    requires SameButForCase(s, t)
    ensures IsSafeLink(TextLink(s)) <==> IsSafeLink(TextLink(t))
  {
    SafeLinkStartsAllowed(s);
    SafeLinkStartsAllowed(t);
    hide IsSafeLink, TrimStart, LowerAll, SameButForCase;
    TrimStartKeepsCase(s, t);
    LoweredAlike(TrimStart(s), TrimStart(t));
  }

  /** Web links and same-origin links are safe, and in lower case nothing else is. */
  lemma WebLinksAreSafe(text: string)
    requires text != "" && forall k :: 0 <= k < |text| && k < 8 ==> 'a' <= text[k] <= 'z' || text[k] == ':' || text[k] == '/'
    ensures IsSafeLink(TextLink(text)) <==> "http://" <= text || "https://" <= text || "/" <= text
  {
    SafeLinkStartsAllowed(text);
    hide IsSafeLink;
    assert !IsBlank(text[0]);
    assert TrimStart(text) == text;
    hide IsBlank;
    assert forall k :: 0 <= k < |text| && k < 8 ==> LowerAll(text)[k] == text[k];
    SamePrefixes(LowerAll(text), text);
  }

  lemma SamePrefixes(s: string, t: string)
    requires |s| == |t| && forall k :: 0 <= k < |s| && k < 8 ==> s[k] == t[k]
    ensures ("http://" <= s <==> "http://" <= t) && ("https://" <= s <==> "https://" <= t) && ("/" <= s <==> "/" <= t)
  {}

  lemma CleanedIsClean(elements: seq<Element>)
    ensures Clean(Cleaned(elements))
  {
    CleanedStripsSurviving(elements);
  }

  lemma {:induction false} CleanIsKept(elements: seq<Element>)
    requires Clean(elements)
    ensures Cleaned(elements) == elements
  {
    if elements != [] {
      var before, e := elements[..|elements| - 1], elements[|elements| - 1];
      CleanIsKept(before);
      assert Survives(e) && !Unsafe(e.link);
      assert elements == before + [e];
    }
  }

  /** A scene is left as it is exactly when it is clean already. */
  lemma FixedPointsAreClean(scene: Scene)
    requires scene.Document?
    ensures Sanitized(scene) == Some(scene) <==> scene.elements.Some? && Clean(scene.elements.value)
  {
    if scene.elements.Some? {
      CleanedIsClean(scene.elements.value);
      if Clean(scene.elements.value) { CleanIsKept(scene.elements.value); }
    }
  }

  /** Sanitizing what was sanitized changes nothing. */
  lemma SanitizingIsIdempotent(scene: Scene)
    requires Sanitized(scene).Some?
    ensures Sanitized(Sanitized(scene).value) == Sanitized(scene)
  {
    if scene.Document? {
      CleanedIsClean(Elements(scene));
      CleanIsKept(Cleaned(Elements(scene)));
    }
  }

  lemma EmbedsExactly(e: Element)
    ensures Embeds(e) <==> e.Object? && Forbidden(e.kind)
  {}

  lemma DroppedSnoc(elements: seq<Element>, e: Element)
    ensures |DroppedAt(elements + [e])| == |DroppedAt(elements)| + if e.Object? && Forbidden(e.kind) then 1 else 0
  {
    EmbedsExactly(e);
    hide Embeds, Forbidden;
    assert DroppedAt(elements + [e]) == DroppedAt(elements) + if Embeds(e) then {|elements|} else {};
  }

  predicate Stripped(e: Element) {
    e.Object? && !Embeds(e) && !Harmless(e.link)
  }

  lemma StrippedSnoc(elements: seq<Element>, e: Element)
    ensures |StrippedAt(elements + [e])| == |StrippedAt(elements)| + if Survives(e) && Unsafe(e.link) then 1 else 0
  {
    SurvivesExactly(e);
    if e.Object? { UnsafeExactly(e.link); }
    hide Survives, Embeds, Harmless, Unsafe;
    assert StrippedAt(elements + [e]) == StrippedAt(elements) + if Stripped(e) then {|elements|} else {};
  }

  lemma {:induction false} StrippedAmongSurvivors(elements: seq<Element>)
    ensures |StrippedAt(Surviving(elements))| == |StrippedAt(elements)|
  {
    if elements != [] {
      var before, e := elements[..|elements| - 1], elements[|elements| - 1];
      assert elements == before + [e];
      StrippedAmongSurvivors(before);
      StrippedSnoc(before, e);
      StrippedSnoc(Surviving(before), e);
      if !Survives(e) { assert Surviving(before) + [] == Surviving(before); }
    }
  }

  /** Drop the embeds, then walk the survivors and null their unsafe links. */
  method SanitizeCanvasScene(raw: Scene) returns (scene: Option<Scene>, droppedElements: nat, strippedLinks: nat)
    ensures scene == Sanitized(raw)
    ensures droppedElements == |DroppedAt(Elements(raw))| && strippedLinks == |StrippedAt(Elements(raw))|
  {
    droppedElements, strippedLinks := 0, 0;
    if raw.Malformed? || raw.NotAnObject? {
      return None, 0, 0;
    }
    var cleaned;
    cleaned, droppedElements := FilterElements(Elements(raw));
    CleanedStripsSurviving(Elements(raw));
    cleaned, strippedLinks := StripLinks(cleaned);
    StrippedAmongSurvivors(Elements(raw));
    assert cleaned == Cleaned(Elements(raw));
    scene := if raw.ArrayDocument? then Some(raw) else Some(Document(Some(cleaned), raw.rest));
  }

  method FilterElements(elements: seq<Element>) returns (cleaned: seq<Element>, dropped: nat)
    ensures cleaned == Surviving(elements) && dropped == |DroppedAt(elements)|
  {
    hide Forbidden, DroppedAt;
    cleaned, dropped := [], 0;
    assert DroppedAt(elements[..0]) == {} by { NoneDropped(); }
    for i := 0 to |elements|
      invariant cleaned == Surviving(elements[..i]) && dropped == |DroppedAt(elements[..i])|
    {
      var e := elements[i];
      SurvivingSnoc(elements[..i], e);
      DroppedSnoc(elements[..i], e);
      assert elements[..i + 1] == elements[..i] + [e];
      if e.Object? {
        if Forbidden(e.kind) {
          dropped := dropped + 1;
        } else {
          cleaned := cleaned + [e];
        }
      }
    }
    assert elements[..|elements|] == elements;
  }

  lemma NoneDropped()
    ensures DroppedAt([]) == {}
  {
  }

  method StripLinks(kept: seq<Element>) returns (cleaned: seq<Element>, stripped: nat)
    requires forall k :: 0 <= k < |kept| ==> Survives(kept[k])
    ensures |cleaned| == |kept| && forall k :: 0 <= k < |kept| ==> cleaned[k] == Strip(kept[k])
    ensures stripped == |StrippedAt(kept)|
  {
    hide Forbidden, Unsafe;
    cleaned, stripped := kept, 0;
    for i := 0 to |cleaned|
      invariant |cleaned| == |kept|
      invariant forall k :: 0 <= k < i ==> cleaned[k] == Strip(kept[k])
      invariant forall k :: i <= k < |kept| ==> cleaned[k] == kept[k]
      invariant stripped == |StrippedAt(kept[..i])|
    {
      StrippedSnoc(kept[..i], kept[i]);
      assert kept[..i + 1] == kept[..i] + [kept[i]];
      if Unsafe(cleaned[i].link) {
        cleaned := cleaned[i := cleaned[i].(link := NullLink)];
        stripped := stripped + 1;
      }
    }
    assert kept[..|kept|] == kept;
  }
}
