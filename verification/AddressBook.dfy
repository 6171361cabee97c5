/**
 * Per-caller address books: short stable ids for target projects, assigned from a
 * slug of the project's name, with a numeric suffix on collision.
 */
module AddressBook {
  import opened Wrappers
  import opened Collections

  // ---------- slugs ----------

  const SLUG_MAX := 24

  predicate Alnum(c: char) {
    'a' <= c <= 'z' || '0' <= c <= '9'
  }

  /** Lower case, as far as it can give ASCII letters: besides A to Z those come from
      the Kelvin sign and from the dotted capital I. */
  function LowerCase(c: char): string {
    if 'A' <= c <= 'Z' then [(c as int + 32) as char]
    else if c == '\U{212A}' then "k"
    else if c == '\U{0130}' then "i\U{0307}"
    else [c]
  }

  function Lowered(s: string): string {
    if s == "" then "" else Lowered(s[..|s| - 1]) + LowerCase(s[|s| - 1])
  }

  /** Every run of other characters made one hyphen. */
  function Hyphenated(s: string): string {
    if s == "" then ""
    else
      var before, c := Hyphenated(s[..|s| - 1]), s[|s| - 1];
      if Alnum(c) then before + [c]
      else if before != "" && before[|before| - 1] == '-' then before
      else before + "-"
  }

  function Unedged(s: string): string {
    var t := if s != "" && s[0] == '-' then s[1..] else s;
    if t != "" && t[|t| - 1] == '-' then t[..|t| - 1] else t
  }

  function Slugify(name: string): string {
    var s := Unedged(Hyphenated(Lowered(name)));
    var cut := if |s| > SLUG_MAX then s[..SLUG_MAX] else s;
    if cut == "" then "project" else cut
  }

  /** Lower-case alphanumerics and single hyphens. */
  predicate Hyphens(s: string) {
    && (forall k :: 0 <= k < |s| ==> Alnum(s[k]) || s[k] == '-')
    && (forall k :: 0 <= k < |s| - 1 ==> s[k] != '-' || s[k + 1] != '-')
  }

  predicate SlugShaped(s: string) {
    Hyphens(s) && 0 < |s| <= SLUG_MAX && s[0] != '-'
  }

  lemma {:induction false} HyphenatedShape(s: string)
    ensures Hyphens(Hyphenated(s))
  {
    if s != "" { HyphenatedShape(s[..|s| - 1]); }
  }

  lemma {:induction false} HyphensAreKept(s: string)
    requires Hyphens(s)
    ensures Hyphenated(s) == s
  {
    if s != "" {
      var before := s[..|s| - 1];
      HyphensAreKept(before);
      assert s == before + [s[|s| - 1]];
      if before != "" { assert s[|s| - 2] == before[|before| - 1]; }
    }
  }

  lemma LowerKept(c: char)
    requires Alnum(c) || c == '-'
    ensures LowerCase(c) == [c]
  {}

  lemma {:induction false} LowerCaseIsKept(s: string)
    requires Hyphens(s)
    ensures Lowered(s) == s
  {
    hide LowerCase, Alnum;
    if s != "" {
      var before, c := s[..|s| - 1], s[|s| - 1];
      HyphensPart(s, 0, |s| - 1);
      assert s[0..|s| - 1] == before;
      hide Hyphens;
      LowerCaseIsKept(before);
      LowerKept(c);
      assert s == before + [c];
    }
  }

  /** Every name gives a usable slug. */
  lemma SlugIsShaped(name: string)
    ensures SlugShaped(Slugify(name)) && PlainText(Slugify(name)) && 0 < |Slugify(name)| <= 24
  {
    PlainIfShaped(Slugify(name));
    hide Hyphenated, Unedged, Alnum, Lowered, PlainText;
    HyphenatedShape(Lowered(name));
    UnedgedShape(Hyphenated(Lowered(name)));
    var s := Unedged(Hyphenated(Lowered(name)));
    if |s| > SLUG_MAX { HyphensPart(s, 0, SLUG_MAX); }
    ProjectShape();
  }

  lemma ProjectShape()
    ensures SlugShaped("project")
  {
  }

  /** Small letters, digits and single hyphens, the first of them no hyphen. */
  predicate PlainText(s: string) {
    && (forall k :: 0 <= k < |s| ==> 'a' <= s[k] <= 'z' || '0' <= s[k] <= '9' || s[k] == '-')
    && (forall k :: 0 <= k < |s| - 1 && s[k] == '-' ==> s[k + 1] != '-')
    && (s != "" ==> s[0] != '-')
  }

  lemma HyphensPart(s: string, i: nat, j: nat)
    requires Hyphens(s) && i <= j <= |s|
    ensures Hyphens(s[i..j])
  {
    hide Alnum;
    var t := s[i..j];
    forall k | 0 <= k < |t| - 1 ensures t[k] != '-' || t[k + 1] != '-' {
      assert t[k] == s[i + k] && t[k + 1] == s[i + k + 1];
    }
  }

  lemma UnedgedShape(s: string)
    requires Hyphens(s)
    ensures Hyphens(Unedged(s)) && (Unedged(s) != "" ==> Unedged(s)[0] != '-')
  {
    hide Alnum;
    var i := if s != "" && s[0] == '-' then 1 else 0;
    var j := if |s| > i && s[|s| - 1] == '-' then |s| - 1 else |s|;
    HyphensPart(s, i, j);
    assert Unedged(s) == s[i..j];
  }

  /** Slugging a slug leaves it alone exactly when the cut at 24 characters did not
      leave a hyphen at the end. */
  lemma SluggingIsStable(name: string)
    ensures Slugify(Slugify(name)) == Slugify(name) <==> Slugify(name)[|Slugify(name)| - 1] != '-'
  {
    hide Hyphenated, Lowered;
    SlugIsShaped(name);
    LowerCaseIsKept(Slugify(name));
    HyphensAreKept(Slugify(name));
  }

  lemma PlainIfShaped(s: string)
    ensures SlugShaped(s) ==> PlainText(s)
    ensures PlainText(s) ==> Hyphens(s)
  {}

  /** A text that could be a slug is kept: cut at 24 characters if it is longer. */
  lemma PlainTextIsKept(s: string)
    requires s != "" && PlainText(s) && s[|s| - 1] != '-'
    ensures Slugify(s) == if |s| <= 24 then s else s[..24]
  {
    PlainIfShaped(s);
    hide Hyphenated, Lowered, Hyphens;
    LowerCaseIsKept(s);
    HyphensAreKept(s);
  }

  /** Such a name: the cut falls on a hyphen, and slugging again removes it. */
  lemma CutCanLeaveAHyphen()
    ensures var name := "abcdefghijklmnopqrstuvw-x";
            Slugify(name) == "abcdefghijklmnopqrstuvw-" && Slugify(Slugify(name)) != Slugify(name)
  {
    var name := "abcdefghijklmnopqrstuvw-x";
    assert PlainText(name);
    hide *;
    PlainTextIsKept(name);
    assert name[..24] == "abcdefghijklmnopqrstuvw-";
    SluggingIsStable(name);
  }

  // ---------- how a name is written ----------

  /** Neither a letter or digit nor one of the two signs that lower case makes one of. */
  predicate Separates(c: char) {
    && !('a' <= c <= 'z') && !('A' <= c <= 'Z') && !('0' <= c <= '9')
    && c != '\U{212A}' && c != '\U{0130}'
  }

  /** The same character, the same letter in either case, or two separators. */
  predicate Alike(c: char, d: char) {
    || c == d
    || ('a' <= c <= 'z' && c as int - d as int == 32)
    || ('a' <= d <= 'z' && d as int - c as int == 32)
    || (Separates(c) && Separates(d))
  }

  lemma LowerAlike(c: char, d: char)
    requires Alike(c, d)
    ensures LowerCase(c) == LowerCase(d) || (LowerCase(c) == [c] && LowerCase(d) == [d] && !Alnum(c) && !Alnum(d))
  {}

  /** What is hyphenated further on depends on what is hyphenated so far. */
  lemma {:induction false} HyphenatedAfter(s: string, t: string, more: string)
    requires Hyphenated(s) == Hyphenated(t)
    ensures Hyphenated(s + more) == Hyphenated(t + more)
  {
    hide Alnum;
    if more == "" {
      assert s + more == s && t + more == t;
    } else {
      var before := more[..|more| - 1];
      HyphenatedAfter(s, t, before);
      assert (s + more)[..|s + more| - 1] == s + before && (t + more)[..|t + more| - 1] == t + before;
    }
  }

  lemma HyphenatedSnoc(s: string, c: char)
    ensures var before := Hyphenated(s);
            Hyphenated(s + [c]) == if Alnum(c) then before + [c]
                                   else if before != "" && before[|before| - 1] == '-' then before
                                   else before + "-"
  {
    assert (s + [c])[..|s|] == s;
  }

  lemma {:induction false} WritingHyphenates(a: string, b: string)
    requires |a| == |b| && forall k :: 0 <= k < |a| ==> Alike(a[k], b[k])
    ensures Hyphenated(Lowered(a)) == Hyphenated(Lowered(b))
  {
    hide Hyphenated, LowerCase, Alike, Alnum;
    if a != "" {
      var n := |a| - 1;
      var x, y := Lowered(a[..n]), Lowered(b[..n]);
      WritingHyphenates(a[..n], b[..n]);
      LowerAlike(a[n], b[n]);
      if LowerCase(a[n]) == LowerCase(b[n]) {
        HyphenatedAfter(x, y, LowerCase(a[n]));
      } else {
        HyphenatedSnoc(x, a[n]);
        HyphenatedSnoc(y, b[n]);
      }
    }
  }

  /** Neither the case of a letter nor the choice of a separator matters to a slug. */
  lemma WritingDoesNotMatter(a: string, b: string)
    requires |a| == |b| && forall k :: 0 <= k < |a| ==> Alike(a[k], b[k])
    ensures Slugify(a) == Slugify(b)
  {
    hide Hyphenated, Lowered, Unedged, Alike;
    WritingHyphenates(a, b);
  }

  lemma {:induction false} LoweredConcat(s: string, t: string)
    ensures Lowered(s + t) == Lowered(s) + Lowered(t)
  {
    hide LowerCase;
    if t == "" {
      assert s + t == s;
    } else {
      var before, more := t[..|t| - 1], LowerCase(t[|t| - 1]);
      LoweredConcat(s, before);
      assert (s + t)[..|s + t| - 1] == s + before;
      assert Lowered(s + t) == Lowered(s) + Lowered(before) + more;
    }
  }

  lemma SlugOf(a: string, b: string)
    requires Unedged(Hyphenated(Lowered(a))) == Unedged(Hyphenated(Lowered(b)))
    ensures Slugify(a) == Slugify(b)
  {
    hide Unedged, Hyphenated, Lowered;
  }

  lemma LoweredHyphens()
    ensures Lowered("-") == "-" && Lowered("--") == "--"
  {
    LowerKept('-');
    LowerCaseIsKept("-");
    assert "--" == "-" + "-";
    LoweredConcat("-", "-");
  }

  lemma RunsHyphenate(x: string, y: string)
    ensures Hyphenated(x + "--" + y) == Hyphenated(x + "-" + y)
  {
    HyphenIsNoLetter();
    HyphenatedSnoc(x, '-');
    HyphenatedSnoc(x + "-", '-');
    assert x + "--" == x + "-" + "-";
    hide Hyphenated, Alnum;
    HyphenatedAfter(x + "--", x + "-", y);
  }

  /** Nor how many separators stand in a row. */
  lemma RunsDoNotMatter(s: string, t: string)
    ensures Slugify(s + "--" + t) == Slugify(s + "-" + t)
  {
    hide *;
    LoweredHyphens();
    LoweredConcat(s + "--", t);
    LoweredConcat(s, "--");
    LoweredConcat(s + "-", t);
    LoweredConcat(s, "-");
    RunsHyphenate(Lowered(s), Lowered(t));
    SlugOf(s + "--" + t, s + "-" + t);
  }

  lemma {:induction false} HyphenBefore(s: string)
    ensures var h := Hyphenated(s);
            Hyphenated("-" + s) == if h != "" && h[0] == '-' then h else "-" + h
  {
    HyphenIsNoLetter();
    hide Alnum;
    if s == "" {
      assert "-" + s == "" + "-";
      HyphenatedSnoc("", '-');
    } else {
      hide Hyphenated;
      var before, c := s[..|s| - 1], s[|s| - 1];
      HyphenBefore(before);
      assert s == before + [c] && "-" + s == "-" + before + [c];
      HyphenatedSnoc(before, c);
      HyphenatedSnoc("-" + before, c);
    }
  }

  lemma EdgesAreCut(x: string)
    ensures Unedged(Hyphenated("-" + x)) == Unedged(Hyphenated(x))
    ensures Unedged(Hyphenated(x + "-")) == Unedged(Hyphenated(x))
  {
    HyphenIsNoLetter();
    HyphenatedShape(x);
    HyphenBefore(x);
    HyphenatedSnoc(x, '-');
    hide Hyphenated, Alnum;
    var h := Hyphenated(x);
    if h != "" && h[0] != '-' { assert ("-" + h)[1..] == h; }
    if h != "" && h[|h| - 1] != '-' { assert (h + "-")[..|h|] == h && (h + "-")[1..][..|h| - 1] == h[1..]; }
  }

  /** Nor whether any stand at the edges. */
  lemma EdgesDoNotMatter(s: string)
    ensures Slugify("-" + s) == Slugify(s) && Slugify(s + "-") == Slugify(s)
  {
    hide *;
    LoweredHyphens();
    LoweredConcat("-", s);
    LoweredConcat(s, "-");
    EdgesAreCut(Lowered(s));
    SlugOf("-" + s, s);
    SlugOf(s + "-", s);
  }

  lemma LoweredOne(c: char)
    ensures Lowered([c]) == LowerCase(c)
  {
    hide LowerCase;
    assert [c][..0] == "" && "" + LowerCase(c) == LowerCase(c);
  }

  lemma HyphenatedSigns()
    ensures Hyphenated("k") == "k" && Hyphenated("i\U{0307}x") == "i-x"
  {
    HyphenatedSnoc("", 'k');
    HyphenatedSnoc("", 'i');
    HyphenatedSnoc("i", '\U{0307}');
    HyphenatedSnoc("i\U{0307}", 'x');
    assert "" + "k" == "k" && "" + "i" == "i";
    assert "i" + "\U{0307}" == "i\U{0307}" && "i\U{0307}" + "x" == "i\U{0307}x";
    assert "i" + "-" == "i-" && "i-" + "x" == "i-x";
  }

  /** Two signs outside ASCII are lowered to letters, one of them with an accent that
      separates. */
  lemma SignsThatSpellLetters()
    ensures Slugify("\U{212A}") == "k" && Slugify("\U{0130}x") == "i-x"
  {
    hide Lowered, Hyphenated;
    LoweredOne('\U{212A}');
    LoweredOne('\U{0130}');
    LoweredOne('x');
    LoweredConcat("\U{0130}", "x");
    assert "\U{0130}" + "x" == "\U{0130}x";
    assert "i\U{0307}" + "x" == "i\U{0307}x";
    HyphenatedSigns();
  }

  /** The letters and digits of a text, in order. */
  function Letters(s: string): string {
    if s == "" then ""
    else Letters(s[..|s| - 1]) + if Alnum(s[|s| - 1]) then [s[|s| - 1]] else ""
  }

  lemma LettersSnoc(s: string, c: char)
    ensures Letters(s + [c]) == Letters(s) + if Alnum(c) then [c] else ""
  {
    assert (s + [c])[..|s|] == s;
  }

  lemma {:induction false} HyphenatedKeepsLetters(s: string)
    ensures Letters(Hyphenated(s)) == Letters(s)
  {
    if s != "" {
      hide Letters, Alnum;
      var before, c := s[..|s| - 1], s[|s| - 1];
      HyphenatedKeepsLetters(before);
      assert s == before + [c];
      LettersSnoc(before, c);
      LettersSnoc(Hyphenated(before), c);
      LettersSnoc(Hyphenated(before), '-');
      HyphenIsNoLetter();
      assert Letters(Hyphenated(before)) + "" == Letters(Hyphenated(before));
    }
  }

  lemma HyphenIsNoLetter()
    ensures !Alnum('-')
  {}

  lemma {:induction false} LettersOfPrefix(s: string, n: nat)
    requires n <= |s|
    ensures Letters(s[..n]) <= Letters(s)
  {
    if n < |s| {
      LettersOfPrefix(s[..|s| - 1], n);
      assert s[..|s| - 1][..n] == s[..n];
    } else {
      assert s[..n] == s;
    }
  }

  lemma {:induction false} LettersWithoutFirst(s: string)
    requires s != "" && !Alnum(s[0])
    ensures Letters(s[1..]) == Letters(s)
  {
    if |s| > 1 {
      LettersWithoutFirst(s[..|s| - 1]);
      assert s[1..][..|s| - 2] == s[..|s| - 1][1..];
    }
  }

  lemma UnedgedKeepsLetters(s: string)
    ensures Letters(Unedged(s)) == Letters(s)
  {
    HyphenIsNoLetter();
    if s != "" && s[0] == '-' { LettersWithoutFirst(s); }
  }

  /** A slug spells its name: its letters and digits are those of the name in lower
      case, as far as the cut allows; a name without any is a `project`. */
  lemma SlugSpellsName(name: string)
    ensures var spelled := Letters(Lowered(name));
            if spelled == "" then Slugify(name) == "project"
            else Letters(Slugify(name)) <= spelled && Letters(Slugify(name)) != ""
                 && (|Unedged(Hyphenated(Lowered(name)))| <= SLUG_MAX ==> Letters(Slugify(name)) == spelled)
  {
    var lowered := Lowered(name);
    HyphenatedShape(lowered);
    HyphenatedKeepsLetters(lowered);
    UnedgedShape(Hyphenated(lowered));
    UnedgedKeepsLetters(Hyphenated(lowered));
    var s := Unedged(Hyphenated(lowered));
    hide Hyphenated, Unedged, Lowered;
    if s != "" { StartsWithLetter(s); }
    if |s| > SLUG_MAX {
      LettersOfPrefix(s, SLUG_MAX);
      StartsWithLetter(s[..SLUG_MAX]);
    }
  }

  lemma StartsWithLetter(s: string)
    requires s != "" && Alnum(s[0])
    ensures Letters(s) != ""
  {
    LettersOfPrefix(s, 1);
    assert s[..1] == [s[0]];
    LettersSnoc("", s[0]);
    assert "" + [s[0]] == [s[0]];
  }

  // ---------- numeric suffixes ----------

  function Decimal(n: nat): (s: string)
    ensures s != ""
  {
    var last := [('0' as int + n % 10) as char];
    if n < 10 then last else Decimal(n / 10) + last
  }

  lemma {:induction false} DecimalIsInjective(m: nat, n: nat)
    requires Decimal(m) == Decimal(n)
    ensures m == n
  {
    var s := Decimal(m);
    assert s[|s| - 1] == ('0' as int + m % 10) as char == ('0' as int + n % 10) as char;
    assert m % 10 == n % 10;
    if m >= 10 && n >= 10 {
      assert s[..|s| - 1] == Decimal(m / 10) && s[..|s| - 1] == Decimal(n / 10);
      DecimalIsInjective(m / 10, n / 10);
    }
  }

  /** A number in decimal notation, without leading zeros. */
  predicate Numeral(s: string) {
    s != "" && (|s| > 1 ==> s[0] != '0') && forall k :: 0 <= k < |s| ==> '0' <= s[k] <= '9'
  }

  function Value(s: string): int {
    if s == "" then 0 else 10 * Value(s[..|s| - 1]) + s[|s| - 1] as int - '0' as int
  }

  /** Decimal notation and its reading undo each other. */
  lemma {:induction false} DecimalReads(n: nat)
    ensures Numeral(Decimal(n)) && Value(Decimal(n)) == n && (n > 0 ==> Decimal(n)[0] != '0')
  {
    var s := Decimal(n);
    if n >= 10 {
      DecimalReads(n / 10);
      assert s[..|s| - 1] == Decimal(n / 10);
    } else {
      assert s[..0] == "";
    }
  }

  lemma DecimalGrows(n: nat, c: char)
    requires n > 0 && '0' <= c <= '9'
    ensures Decimal(10 * n + (c as int - '0' as int)) == Decimal(n) + [c]
  {}

  lemma NumeralDigits(s: string)
    requires Numeral(s)
    ensures '0' <= s[|s| - 1] <= '9' && (|s| > 1 ==> Numeral(s[..|s| - 1]) && s[0] != '0')
  {}

  lemma {:induction false} NumeralsAreDecimal(s: string)
    requires Numeral(s)
    ensures Value(s) >= 0 && Decimal(Value(s)) == s && (s[0] != '0' ==> Value(s) > 0)
  {
    NumeralDigits(s);
    var before, c := s[..|s| - 1], s[|s| - 1];
    assert s == before + [c];
    if before != "" {
      hide Decimal, Numeral;
      NumeralsAreDecimal(before);
      DecimalGrows(Value(before), c);
    }
  }

  function Suffixed(slug: string, i: nat): string {
    slug + "-" + Decimal(i)
  }

  lemma SuffixesDiffer(slug: string, i: nat, j: nat)
    requires Suffixed(slug, i) == Suffixed(slug, j)
    ensures i == j
  {
    assert Suffixed(slug, i)[|slug| + 1..] == Decimal(i);
    assert Suffixed(slug, j)[|slug| + 1..] == Decimal(j);
    DecimalIsInjective(i, j);
  }

  // ---------- one book ----------

  type Book = map<string, string>

  /** The one slug that every plain JavaScript object answers to unasked. */
  const INHERITED := "constructor"

  /** What the collision test sees: an id whose target is the empty string is free,
      and the inherited name is taken unless the book has an entry for it. */
  predicate Taken(book: Book, id: string) {
    if id in book then book[id] != "" else id == INHERITED
  }

  predicate Lists(book: Book, target: string) {
    target in book.Values
  }

  ghost predicate Injective(book: Book) {
    forall i, j | i in book && j in book && book[i] == book[j] :: i == j
  }

  /** The slug if it is free, else the slug with the first free suffix from 2 on. */
  ghost predicate FreshId(book: Book, slug: string, id: string) {
    && !Taken(book, id)
    && (id == slug
        || (Taken(book, slug)
            && exists i: nat :: 2 <= i && id == Suffixed(slug, i)
                                && forall k :: 2 <= k < i ==> Taken(book, Suffixed(slug, k))))
  }

  /** What one request does to the caller's book. */
  ghost predicate Assigns(book: Book, target: string, name: string, id: string, after: Book) {
    if Lists(book, target) then id in book && book[id] == target && after == book
    else FreshId(book, Slugify(name), id) && after == book[id := target]
  }

  lemma SuffixIsNotInherited(slug: string, i: nat)
    ensures Suffixed(slug, i) != INHERITED
  {
    assert Suffixed(slug, i)[|slug|] == '-';
  }

  /** The suffixed ids are different keys, so a book of n entries cannot hold n + 1
      of them. */
  lemma SuffixesFit(book: Book, slug: string, i: nat)
    requires 2 <= i && forall k :: 2 <= k < i ==> Taken(book, Suffixed(slug, k))
    ensures i - 2 <= |book|
  {
    hide Suffixed;
    var used := SuffixSet(slug, i);
    SuffixSetSize(slug, i);
    forall s | s in used ensures s in book.Keys {
      var k: nat :| 2 <= k < i && s == Suffixed(slug, k);
      SuffixIsNotInherited(slug, k);
    }
    SubsetSize(used, book.Keys);
  }

  /** The first free suffix from `i` on. */
  function FirstFree(book: Book, slug: string, i: nat): (r: nat)
    requires 2 <= i && forall k :: 2 <= k < i ==> Taken(book, Suffixed(slug, k))
    ensures i <= r && !Taken(book, Suffixed(slug, r)) && forall k :: 2 <= k < r ==> Taken(book, Suffixed(slug, k))
    decreases |book| + 2 - i
  {
    SuffixesFit(book, slug, i);
    if !Taken(book, Suffixed(slug, i)) then i
    else
      SuffixesFit(book, slug, i + 1);
      FirstFree(book, slug, i + 1)
  }

  /** The id that the next new target under this slug will get. */
  function NextId(book: Book, slug: string): string {
    if !Taken(book, slug) then slug else Suffixed(slug, FirstFree(book, slug, 2))
  }

  lemma FirstFreeIsUnique(book: Book, slug: string, i: nat, j: nat)
    requires 2 <= i && !Taken(book, Suffixed(slug, i)) && forall k :: 2 <= k < i ==> Taken(book, Suffixed(slug, k))
    requires 2 <= j && !Taken(book, Suffixed(slug, j)) && forall k :: 2 <= k < j ==> Taken(book, Suffixed(slug, k))
    ensures i == j
  {}

  lemma FreshIdIsNext(book: Book, slug: string, id: string)
    ensures FreshId(book, slug, id) <==> id == NextId(book, slug)
  {
    if FreshId(book, slug, id) && id != slug {
      var i: nat :| 2 <= i && id == Suffixed(slug, i) && forall k :: 2 <= k < i ==> Taken(book, Suffixed(slug, k));
      FirstFreeIsUnique(book, slug, i, FirstFree(book, slug, 2));
    }
  }

  /** Free is an id that is no key, or the key of an empty target, save that
      `constructor` is free only as the latter. */
  predicate Free(book: Book, id: string) {
    if id in book then book[id] == "" else id != "constructor"
  }

  lemma NextIdIsLeast(book: Book, slug: string, n: nat)
    ensures NextId(book, slug) == Suffixed(slug, n)
       <==> Taken(book, slug) && 2 <= n && !Taken(book, Suffixed(slug, n))
            && forall k :: 2 <= k < n ==> Taken(book, Suffixed(slug, k))
  {
    hide Taken, FirstFree;
    assert |Suffixed(slug, n)| > |slug|;
    if Taken(book, slug) {
      var r := FirstFree(book, slug, 2);
      if Suffixed(slug, r) == Suffixed(slug, n) { SuffixesDiffer(slug, r, n); }
      hide Suffixed;
      if 2 <= n && !Taken(book, Suffixed(slug, n)) && forall k :: 2 <= k < n ==> Taken(book, Suffixed(slug, k)) {
        FirstFreeIsUnique(book, slug, n, r);
      }
    }
  }

  /** A new target gets the bare slug if that is free, else the slug with the least
      number from 2 on that makes a free id of it. */
  lemma NextIdExactly(book: Book, slug: string, number: string)
    requires Numeral(number)
    ensures NextId(book, slug) == slug <==> Free(book, slug)
    ensures NextId(book, slug) == slug + "-" + number
       <==> !Free(book, slug) && 2 <= Value(number) && Free(book, slug + "-" + number)
            && forall m :: Numeral(m) && 2 <= Value(m) < Value(number) ==> !Free(book, slug + "-" + m)
  {
    assert NextId(book, slug) == slug <==> !Taken(book, slug);
    hide Decimal, Value, Numeral, NextId;
    assert forall id :: Taken(book, id) <==> !Free(book, id);
    hide Taken, Free;
    NumeralsAreDecimal(number);
    var n: nat := Value(number);
    NextIdIsLeast(book, slug, n);
    forall k: nat | 2 <= k < n ensures Numeral(Decimal(k)) && Value(Decimal(k)) == k { DecimalReads(k); }
    forall m | Numeral(m) && 2 <= Value(m) < n ensures Suffixed(slug, Value(m)) == slug + "-" + m {
      NumeralsAreDecimal(m);
    }
    if forall k :: 2 <= k < n ==> Taken(book, Suffixed(slug, k)) {
      forall m | Numeral(m) && 2 <= Value(m) < n ensures Taken(book, slug + "-" + m) {
        assert Taken(book, Suffixed(slug, Value(m)));
      }
    }
    if forall m :: Numeral(m) && 2 <= Value(m) < n ==> Taken(book, slug + "-" + m) {
      forall k | 2 <= k < n ensures Taken(book, Suffixed(slug, k)) { assert Numeral(Decimal(k)); }
    }
  }

  ghost function SuffixSet(slug: string, i: nat): set<string> {
    set k: nat | 2 <= k < i :: Suffixed(slug, k)
  }

  lemma {:induction false} SuffixSetSize(slug: string, i: nat)
    requires 2 <= i
    ensures |SuffixSet(slug, i)| == i - 2
  {
    hide Suffixed;
    if i == 2 {
      assert SuffixSet(slug, i) == {};
    } else {
      SuffixSetSize(slug, i - 1);
      assert SuffixSet(slug, i) == SuffixSet(slug, i - 1) + {Suffixed(slug, i - 1)};
      forall k: nat | 2 <= k < i - 1 ensures Suffixed(slug, k) != Suffixed(slug, i - 1) {
        if Suffixed(slug, k) == Suffixed(slug, i - 1) { SuffixesDiffer(slug, k, i - 1); }
      }
    }
  }

  // ---------- what a request keeps ----------

  /** The result resolves to the target. */
  lemma AssignedResolves(book: Book, target: string, name: string, id: string, after: Book)
    requires Assigns(book, target, name, id, after)
    ensures id in after && after[id] == target
  {
  }

  lemma AssigningKeepsInjective(book: Book, target: string, name: string, id: string, after: Book)
    requires Injective(book) && Assigns(book, target, name, id, after)
    ensures Injective(after)
  {
    if !Lists(book, target) {
      forall i | i in book ensures book[i] != target { assert book[i] in book.Values; }
    }
  }

  /** Asking again for the same target, under any name, gives the same id and
      changes nothing. */
  lemma AssigningIsIdempotent(book: Book, target: string, name: string, id: string, after: Book,
                              otherName: string, otherId: string, afterAgain: Book)
    requires Injective(book) && Assigns(book, target, name, id, after)
    requires Assigns(after, target, otherName, otherId, afterAgain)
    ensures otherId == id && afterAgain == after
  {
    AssigningKeepsInjective(book, target, name, id, after);
    AssignedResolves(book, target, name, id, after);
    assert after[id] in after.Values;
  }

  ghost predicate Keeps(book: Book, after: Book) {
    forall i | i in book :: i in after && after[i] == book[i]
  }

  /** No existing id changes its meaning exactly when the target is listed already,
      or the id it will get is no key of the book. (It can be one: an entry for the
      empty string counts as free.) */
  lemma MeaningsKeptExactly(book: Book, target: string, name: string, id: string, after: Book)
    requires Assigns(book, target, name, id, after)
    ensures Keeps(book, after) <==> Lists(book, target) || NextId(book, Slugify(name)) !in book
  {
    hide Slugify, NextId;
    if !Lists(book, target) {
      FreshIdIsNext(book, Slugify(name), id);
      if id in book { assert book[id] in book.Values; }
    }
  }

  // ---------- all books, over runs ----------

  datatype Request = Request(caller: string, target: string, name: string)

  type Books = map<string, Book>

  function BookOf(books: Books, caller: string): Book {
    if caller in books then books[caller] else map[]
  }

  function Resolve(books: Books, caller: string, id: string): Option<string> {
    if id in BookOf(books, caller) then Some(BookOf(books, caller)[id]) else None
  }

  /** A request works on the caller's book; every other book stays as it is. */
  ghost predicate Served(books: Books, r: Request, id: string, after: Books) {
    Assigns(BookOf(books, r.caller), r.target, r.name, id, BookOf(after, r.caller))
    && after == books[r.caller := BookOf(after, r.caller)]
  }

  /** Injective books without empty targets, as a new store is. */
  ghost predicate AllGood(books: Books) {
    forall c :: Injective(BookOf(books, c)) && "" !in BookOf(books, c).Values
  }

  /** The states and answers of a run of requests, from a good store. */
  ghost predicate IsRun(states: seq<Books>, requests: seq<Request>, ids: seq<string>) {
    && |states| == |requests| + 1 && |ids| == |requests| && AllGood(states[0])
    && forall k :: 0 <= k < |requests| ==> Served(states[k], requests[k], ids[k], states[k + 1])
  }

  predicate RealTargets(requests: seq<Request>) {
    forall k :: 0 <= k < |requests| ==> requests[k].target != ""
  }

  lemma ServingKeepsGood(books: Books, r: Request, id: string, after: Books)
    requires AllGood(books) && Served(books, r, id, after) && r.target != ""
    ensures AllGood(after)
    ensures forall c :: Keeps(BookOf(books, c), BookOf(after, c))
  {
    var book, next := BookOf(books, r.caller), BookOf(after, r.caller);
    AssigningKeepsInjective(book, r.target, r.name, id, next);
    MeaningsKeptExactly(book, r.target, r.name, id, next);
    FreshIdIsNext(book, Slugify(r.name), id);
    if id in book { assert book[id] in book.Values; }
    assert "" !in next.Values;
    forall c ensures Injective(BookOf(after, c)) && "" !in BookOf(after, c).Values
                     && Keeps(BookOf(books, c), BookOf(after, c))
    {
      if c != r.caller { assert BookOf(after, c) == BookOf(books, c); }
    }
  }

  lemma {:induction false} RunStaysGood(states: seq<Books>, requests: seq<Request>, ids: seq<string>, n: nat)
    requires IsRun(states, requests, ids) && RealTargets(requests) && n < |states|
    ensures AllGood(states[n])
  {
    hide AllGood, Served;
    if n > 0 {
      RunStaysGood(states, requests, ids, n - 1);
      ServingKeepsGood(states[n - 1], requests[n - 1], ids[n - 1], states[n]);
    }
  }

  lemma {:induction false} IdsStay(states: seq<Books>, requests: seq<Request>, ids: seq<string>, m: nat, n: nat, caller: string)
    requires IsRun(states, requests, ids) && RealTargets(requests) && m <= n < |states|
    ensures Keeps(BookOf(states[m], caller), BookOf(states[n], caller))
  {
    hide AllGood, Served, BookOf;
    if m < n {
      IdsStay(states, requests, ids, m, n - 1, caller);
      RunStaysGood(states, requests, ids, n - 1);
      ServingKeepsGood(states[n - 1], requests[n - 1], ids[n - 1], states[n]);
    }
  }

  /** Over any run of requests from any callers, an id handed out resolves to its
      target from then on. */
  lemma AnswersResolveForever(states: seq<Books>, requests: seq<Request>, ids: seq<string>, k: nat, n: nat)
    requires IsRun(states, requests, ids) && RealTargets(requests) && k < n < |states|
    ensures Resolve(states[n], requests[k].caller, ids[k]) == Some(requests[k].target)
  {
    var r := requests[k];
    AssignedResolves(BookOf(states[k], r.caller), r.target, r.name, ids[k], BookOf(states[k + 1], r.caller));
    IdsStay(states, requests, ids, k + 1, n, r.caller);
  }

  /** ... and within one caller's book two answers agree exactly when they were for
      the same target, under whatever names they were asked for. */
  lemma AnswersIdentifyTargets(states: seq<Books>, requests: seq<Request>, ids: seq<string>, j: nat, k: nat)
    requires IsRun(states, requests, ids) && RealTargets(requests)
    requires j < |requests| && k < |requests| && requests[j].caller == requests[k].caller
    ensures ids[j] == ids[k] <==> requests[j].target == requests[k].target
  {
    var n := |requests|;
    AnswersResolveForever(states, requests, ids, j, n);
    AnswersResolveForever(states, requests, ids, k, n);
    RunStaysGood(states, requests, ids, n);
  }

  /** An empty target is where an id does change its meaning. */
  lemma EmptyTargetLosesItsId()
    ensures var first: Book := map["a" := ""]; var second: Book := map["a" := "t"];
            Assigns(map[], "", "a", "a", first) && Assigns(first, "t", "a", "a", second)
            && !Keeps(first, second)
  {
    SlugOfA();
    var none: Book, first: Book, second: Book := map[], map["a" := ""], map["a" := "t"];
    assert first == none["a" := ""] && second == first["a" := "t"];
    assert !Lists(first, "t");
    assert "a" in first && second["a"] != first["a"];
  }

  lemma SlugOfA()
    ensures Slugify("a") == "a"
  {
    hide Slugify;
    PlainTextIsKept("a");
  }

  // ---------- the module state as an object ----------

  class AddressBooks {
    var books: Books

    constructor ()
      ensures books == map[]
    {
      books := map[];
    }

    method GetOrAssign(caller: string, target: string, name: string) returns (id: string)
      modifies this
      ensures Served(old(books), Request(caller, target, name), id, books)
    {
      hide Slugify;
      ghost var before := books;
      if caller !in books { books := books[caller := map[]]; }
      var book := books[caller];
      assert book == BookOf(before, caller);

      var rest := book;
      while rest != map[]
        invariant forall i | i in rest :: i in book && rest[i] == book[i]
        invariant forall i | i in book && i !in rest :: book[i] != target
        invariant books == before[caller := book]
        decreases |rest|
      {
        var entry :| entry in rest;
        if rest[entry] == target {
          assert book[entry] in book.Values;
          return entry;
        }
        rest := rest - {entry};
      }
      assert !Lists(book, target);

      var slug := Slugify(name);
      id := slug;
      if Taken(book, slug) {
        var i := FirstFreeSuffix(book, slug);
        id := Suffixed(slug, i);
      }
      books := books[caller := book[id := target]];
    }

    /** Terminates within the size of the book. */
    static method FirstFreeSuffix(book: Book, slug: string) returns (i: nat)
      ensures 2 <= i <= |book| + 2
      ensures !Taken(book, Suffixed(slug, i)) && forall k :: 2 <= k < i ==> Taken(book, Suffixed(slug, k))
    {
      i := 2;
      while Taken(book, Suffixed(slug, i))
        invariant 2 <= i <= |book| + 2
        invariant forall k :: 2 <= k < i ==> Taken(book, Suffixed(slug, k))
        decreases |book| + 2 - i
      {
        SuffixesFit(book, slug, i + 1);
        i := i + 1;
      }
    }

    method ResolveId(caller: string, id: string) returns (target: Option<string>)
      ensures target == Resolve(books, caller, id)
    {
      target := if caller in books && id in books[caller] then Some(books[caller][id]) else None;
    }
  }
}
