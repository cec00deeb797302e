/**
 * Test-step extraction: the two string cleaners `stripTags` and `splitExpected` and the loops that
 * turn the text contents of a test case's `<parameterizedString>` elements into numbered steps.
 * The regular expressions are modelled by what they match under JavaScript's semantics: a global
 * `replace` or `match` tries each position from the left, resumes after a match and moves one
 * character on after a failed attempt.
 */
module StepParsing {
  import opened Wrappers
  import opened JsText

  // ---------------------------------------------------------------------------------------------
  // stripTags: text.replace(/<.*?>/g, '') followed by trim() || 'none'
  // ---------------------------------------------------------------------------------------------

  /**
   * Where the lazy `.*?>` that follows a `<` stops: the index in `s` of the first `>`, provided
   * no line terminator comes before it (`.` does not cross a line end). `None` when the line, or
   * the text, ends first.
   */
  function CloseTag(s: string): (r: Option<nat>)
    ensures r.Some? ==> r.value < |s| && s[r.value] == '>'
    ensures r.Some? ==> forall k :: 0 <= k < r.value ==> s[k] != '>' && !IsLineTerminator(s[k])
    ensures r.None? && s != [] ==> s[0] != '>'
  {
    if s == [] then None
    else if s[0] == '>' then Some(0)
    else if IsLineTerminator(s[0]) then None
    else match CloseTag(s[1..]) {
      case Some(j) => Some(j + 1)
      case None => None
    }
  }

  /** `text.replace(/<.*?>/g, '')`: deletes, from the left, every `<` up to the `>` that closes it on its line. */
  function RemoveTags(s: string): (r: string)
    ensures |r| <= |s|
    decreases |s|
  {
    if s == [] then []
    else if s[0] == '<' && CloseTag(s[1..]).Some? then RemoveTags(s[CloseTag(s[1..]).value + 2..])
    else [s[0]] + RemoveTags(s[1..])
  }

  /** The fallback text `"none"` is its own trim. */
  lemma NoneTrimmed()
    ensures Trim("none") == "none"
  {
    TrimOfTrimmed("none");
  }

  /** `stripTags`: the tag-free, trimmed text, or `"none"` when nothing is left. */
  function StripTags(text: string): (r: string)
    ensures r != []
  {
    var clean := Trim(RemoveTags(text));
    if clean != [] then clean else "none"
  }

  /**
   * No `<` of `s` is followed by a `>` on the same line, so `<.*?>` matches nowhere in `s`.
   * `open` records that a `<` was seen earlier on the current line.
   */
  predicate TagFreeFrom(s: string, open: bool)
    decreases |s|
  {
    s == [] ||
    ((s[0] == '>' ==> !open) &&
     TagFreeFrom(s[1..], if IsLineTerminator(s[0]) then false else if s[0] == '<' then true else open))
  }

  predicate TagFree(s: string) {
    TagFreeFrom(s, false)
  }

  lemma {:induction false} TagFreeWeaken(s: string)
    requires TagFreeFrom(s, true)
    ensures TagFreeFrom(s, false)
  {
    if s != [] && !IsLineTerminator(s[0]) && s[0] != '<' {
      TagFreeWeaken(s[1..]);
    }
  }

  /** After an unclosed `<`, no `>` follows on the line: `CloseTag` finds nothing. */
  lemma {:induction false} OpenHasNoClose(s: string)
    requires TagFreeFrom(s, true)
    ensures CloseTag(s).None?
  {
    if s != [] && !IsLineTerminator(s[0]) {
      if s[0] == '<' {
        OpenHasNoClose(s[1..]);
      } else {
        OpenHasNoClose(s[1..]);
      }
    }
  }

  /** On tag-free text the tag removal changes nothing. */
  lemma {:induction false} RemoveTagsOfTagFree(s: string, open: bool)
    requires TagFreeFrom(s, open)
    ensures RemoveTags(s) == s
  {
    if s != [] {
      if s[0] == '<' {
        OpenHasNoClose(s[1..]);
      }
      RemoveTagsOfTagFree(s[1..], if IsLineTerminator(s[0]) then false else if s[0] == '<' then true else open);
    }
  }

  /** The tag removal leaves no `<…>` span behind: its output is tag-free. */
  lemma {:induction false} RemoveTagsIsTagFree(s: string)
    ensures TagFree(RemoveTags(s))
    ensures CloseTag(s).None? ==> TagFreeFrom(RemoveTags(s), true)
    decreases |s|
  {
    if s != [] {
      if s[0] == '<' && CloseTag(s[1..]).Some? {
        RemoveTagsIsTagFree(s[CloseTag(s[1..]).value + 2..]);
      } else {
        RemoveTagsIsTagFree(s[1..]);
        var r := RemoveTags(s);
        assert r[1..] == RemoveTags(s[1..]);
        if s[0] == '<' {
          assert TagFreeFrom(r[1..], true);
        }
      }
    }
  }

  lemma {:induction false} TagFreeDropFirst(s: string, open: bool)
    requires s != [] && TagFreeFrom(s, open)
    ensures TagFreeFrom(s[1..], false)
  {
    if !IsLineTerminator(s[0]) && (s[0] == '<' || open) {
      TagFreeWeaken(s[1..]);
    }
  }

  lemma {:induction false} TagFreeSuffix(s: string, k: nat)
    requires k <= |s| && TagFree(s)
    ensures TagFree(s[k..])
  {
    if k > 0 {
      TagFreeDropFirst(s, false);
      TagFreeSuffix(s[1..], k - 1);
      assert s[1..][k - 1..] == s[k..];
    }
  }

  lemma {:induction false} TagFreePrefix(s: string, k: nat, open: bool)
    requires k <= |s| && TagFreeFrom(s, open)
    ensures TagFreeFrom(s[..k], open)
  {
    if k > 0 {
      TagFreePrefix(s[1..], k - 1, if IsLineTerminator(s[0]) then false else if s[0] == '<' then true else open);
      assert s[..k][1..] == s[1..][..k - 1];
    }
  }

  lemma {:induction false} TrimTagFree(s: string)
    requires TagFree(s)
    ensures TagFree(Trim(s))
  {
    var t := TrimStart(s);
    TrimStartSuffix(s);
    TrimEndPrefix(t);
    TagFreeSuffix(s, |s| - |t|);
    TagFreePrefix(t, |TrimEnd(t)|, false);
  }

  /** `stripTags` is idempotent: cleaning a cleaned string changes nothing. */
  lemma {:induction false} StripTagsIdempotent(text: string)
    ensures StripTags(StripTags(text)) == StripTags(text)
  {
    var clean := Trim(RemoveTags(text));
    if clean == [] {
      NoAngleRemoveTags("none");
      NoneTrimmed();
    } else {
      RemoveTagsIsTagFree(text);
      TrimTagFree(RemoveTags(text));
      RemoveTagsOfTagFree(clean, false);
      TrimIdempotent(RemoveTags(text));
    }
  }

  /** The result of `stripTags` holds no `<…>` span. */
  lemma {:induction false} StripTagsIsTagFree(text: string)
    ensures TagFree(StripTags(text))
  {
    RemoveTagsIsTagFree(text);
    TrimTagFree(RemoveTags(text));
    NoAngleRemoveTags("none");
    NoAngleTagFree("none", false);
  }

  lemma {:induction false} NoAngleRemoveTags(s: string)
    requires '<' !in s
    ensures RemoveTags(s) == s
  {
    if s != [] {
      assert s[0] in s;
      NoAngleRemoveTags(s[1..]);
    }
  }

  lemma {:induction false} NoAngleTagFree(s: string, open: bool)
    requires '<' !in s && !open
    ensures TagFreeFrom(s, open)
  {
    if s != [] {
      assert s[0] in s;
      NoAngleTagFree(s[1..], false);
    }
  }

  /** Text without `<` is only trimmed (and mapped to `"none"` when blank). */
  lemma {:induction false} StripTagsWithoutAngle(text: string)
    requires '<' !in text
    ensures StripTags(text) == if Trim(text) == [] then "none" else Trim(text)
  {
    NoAngleRemoveTags(text);
  }

  /** A `<…>` span closed on its line is deleted together with its brackets. */
  lemma {:induction false} StripTagsDeletesSpan(before: string, inner: string, after: string)
    requires '<' !in before && '>' !in inner && forall c :: c in inner ==> !IsLineTerminator(c)
    ensures RemoveTags(before + "<" + inner + ">" + after) == before + RemoveTags(after)
  {
    var span := "<" + inner + ">" + after;
    assert before + "<" + inner + ">" + after == before + span;
    RemoveTagsKeepsPrefix(before, span);
    RemoveTagsOfSpan(inner, after);
  }

  /** Text without `<` in front of the rest is kept as it is. */
  lemma {:induction false} RemoveTagsKeepsPrefix(before: string, rest: string)
    requires '<' !in before
    ensures RemoveTags(before + rest) == before + RemoveTags(rest)
  {
    if before != [] {
      assert before[0] in before;
      RemoveTagsKeepsPrefix(before[1..], rest);
      var s := before + rest;
      assert s[0] == before[0] && s[1..] == before[1..] + rest;
      assert RemoveTags(s) == [before[0]] + RemoveTags(s[1..]);
      assert before + RemoveTags(rest) == [before[0]] + (before[1..] + RemoveTags(rest));
    } else {
      assert before + rest == rest && before + RemoveTags(rest) == RemoveTags(rest);
    }
  }

  /** A span at the start of the text goes, brackets and all. */
  lemma RemoveTagsOfSpan(inner: string, after: string)
    requires '>' !in inner && forall c :: c in inner ==> !IsLineTerminator(c)
    ensures RemoveTags("<" + inner + ">" + after) == RemoveTags(after)
  {
    var s := "<" + inner + ">" + after;
    assert s[1..] == inner + ">" + after;
    CloseTagOfSpan(inner, after);
    assert s[|inner| + 2..] == after;
  }

  lemma {:induction false} CloseTagOfSpan(inner: string, after: string)
    requires '>' !in inner && forall c :: c in inner ==> !IsLineTerminator(c)
    ensures CloseTag(inner + ">" + after) == Some(|inner|)
  {
    if inner != [] {
      assert inner[0] in inner;
      CloseTagOfSpan(inner[1..], after);
      assert (inner + ">" + after)[1..] == inner[1..] + ">" + after;
    }
  }

  /** A blank text, white space only, gives "none". */
  lemma {:induction false} StripTagsBlank(text: string)
    requires forall k :: 0 <= k < |text| ==> IsWhiteSpace(text[k])
    ensures StripTags(text) == "none"
  {
    assert !IsWhiteSpace('<');
    StripTagsWithoutAngle(text);
    TrimEmpty(text);
  }

  /** What may stand between `<` and `>` in one deleted span: no `>` and no line break. */
  predicate SpanInner(x: string) {
    '>' !in x && forall c :: c in x ==> !IsLineTerminator(c)
  }

  /** The text made of one `<x>` span per element of `xs`, in order. */
  function Tags(xs: seq<string>): (r: string)
    ensures |r| >= 2 * |xs|
  {
    if xs == [] then "" else "<" + xs[0] + ">" + Tags(xs[1..])
  }

  /** The tag removal deletes a run of spans completely. */
  lemma {:induction false} RemoveTagsOfTags(xs: seq<string>)
    requires forall k :: 0 <= k < |xs| ==> SpanInner(xs[k])
    ensures RemoveTags(Tags(xs)) == ""
  {
    if xs != [] {
      assert SpanInner(xs[0]);
      RemoveTagsOfSpan(xs[0], Tags(xs[1..]));
      RemoveTagsOfTags(xs[1..]);
    }
  }

  /** A text that is nothing but `<x>` spans, each closed on its line, gives "none". */
  lemma {:induction false} StripTagsAllTags(xs: seq<string>)
    requires forall k :: 0 <= k < |xs| ==> SpanInner(xs[k])
    ensures StripTags(Tags(xs)) == "none"
  {
    RemoveTagsOfTags(xs);
  }

  // ---------------------------------------------------------------------------------------------
  // splitExpected, step 1: text.replace(/&[a-zA-Z0-9#]+;/g, '') and trim()
  // ---------------------------------------------------------------------------------------------

  predicate IsEntityChar(c: char) {
    ('a' <= c <= 'z') || ('A' <= c <= 'Z') || IsDigit(c) || c == '#'
  }

  /** The length of the leading run of `[a-zA-Z0-9#]` characters. */
  function EntityRun(s: string): (n: nat)
    ensures n <= |s|
    ensures forall k :: 0 <= k < n ==> IsEntityChar(s[k])
    ensures n < |s| ==> !IsEntityChar(s[n])
  {
    if s != [] && IsEntityChar(s[0]) then 1 + EntityRun(s[1..]) else 0
  }

  /**
   * The length of the entity `&name;` at the start of `s`, if any. The greedy `+` takes the whole
   * run of name characters; giving some back cannot help, since `;` is not a name character.
   */
  function EntityAt(s: string): (r: Option<nat>)
    ensures r.Some? ==> 3 <= r.value <= |s| && s[0] == '&' && s[r.value - 1] == ';'
  {
    if s != [] && s[0] == '&' && EntityRun(s[1..]) > 0 && 1 + EntityRun(s[1..]) < |s| && s[1 + EntityRun(s[1..])] == ';'
    then Some(EntityRun(s[1..]) + 2)
    else None
  }

  /** `text.replace(/&[a-zA-Z0-9#]+;/g, '')`. */
  function RemoveEntities(s: string): (r: string)
    ensures |r| <= |s|
    decreases |s|
  {
    if s == [] then []
    else match EntityAt(s) {
      case Some(n) => RemoveEntities(s[n..])
      case None => [s[0]] + RemoveEntities(s[1..])
    }
  }

  /** A name of entity characters ended by `;` is exactly the leading run of name characters. */
  lemma {:induction false} EntityRunOf(name: string, q: string)
    requires forall c :: c in name ==> IsEntityChar(c)
    ensures EntityRun(name + ";" + q) == |name|
    decreases |name|
  {
    var s := name + ";" + q;
    if name == [] {
      assert s[0] == ';';
    } else {
      assert name[0] in name;
      assert s[1..] == name[1..] + ";" + q;
      EntityRunOf(name[1..], q);
    }
  }

  /** An entity at the very start is deleted and the replace goes on after its `;`. */
  lemma RemoveEntitiesOfEntity(name: string, q: string)
    requires |name| > 0 && forall c :: c in name ==> IsEntityChar(c)
    ensures RemoveEntities(("&" + name + ";") + q) == RemoveEntities(q)
  {
    var s := ("&" + name + ";") + q;
    assert s[1..] == name + ";" + q;
    EntityRunOf(name, q);
    assert s[1 + |name|] == ';';
    assert EntityAt(s) == Some(|name| + 2);
    assert s[|name| + 2..] == q;
  }

  /** A first character other than `&` is kept, and the replace goes on from the next one. */
  lemma RemoveEntitiesKeeps(s: string)
    requires s != [] && s[0] != '&'
    ensures RemoveEntities(s) == [s[0]] + RemoveEntities(s[1..])
  {
  }

  /**
   * The entity replace deletes an entity `&name;`, keeps the text without `&` before it, and goes
   * on after the `;`.
   */
  lemma {:induction false} RemoveEntitiesDeletesEntity(p: string, name: string, q: string)
    requires '&' !in p && |name| > 0 && forall c :: c in name ==> IsEntityChar(c)
    ensures RemoveEntities(p + ("&" + name + ";") + q) == p + RemoveEntities(q)
    decreases |p|
  {
    var t := ("&" + name + ";") + q;
    assert p + ("&" + name + ";") + q == p + t;
    if p == [] {
      assert p + t == t;
      RemoveEntitiesOfEntity(name, q);
    } else {
      assert p[0] in p;
      assert (p + t)[0] == p[0] && (p + t)[1..] == p[1..] + t;
      RemoveEntitiesKeeps(p + t);
      assert p[1..] + ("&" + name + ";") + q == p[1..] + t;
      RemoveEntitiesDeletesEntity(p[1..], name, q);
      assert p == [p[0]] + p[1..];
    }
  }

  /** Text without `&` holds no entity and is left as it is. */
  lemma {:induction false} RemoveEntitiesWithoutAmp(s: string)
    requires '&' !in s
    ensures RemoveEntities(s) == s
  {
    if s != [] {
      assert s[0] in s;
      RemoveEntitiesWithoutAmp(s[1..]);
    }
  }

  // ---------------------------------------------------------------------------------------------
  // splitExpected, step 2: text.match(/\d+\.\s*([^\d]+?)(?=(?:\d+\.|$))/g)
  // ---------------------------------------------------------------------------------------------

  /** The length of the leading run of digits. */
  function DigitRun(s: string): (n: nat)
    ensures n <= |s| && AllDigits(s[..n])
    ensures n < |s| ==> !IsDigit(s[n])
  {
    if s != [] && IsDigit(s[0]) then 1 + DigitRun(s[1..]) else 0
  }

  /** The length of the leading run of non-digits. */
  function NonDigitRun(s: string): (n: nat)
    ensures n <= |s| && DigitFree(s[..n])
    ensures n < |s| ==> IsDigit(s[n])
  {
    if s != [] && !IsDigit(s[0]) then 1 + NonDigitRun(s[1..]) else 0
  }

  /** The length of the leading run of white space. */
  function WhiteRun(s: string): (n: nat)
    ensures n <= |s|
    ensures forall k :: 0 <= k < n ==> IsWhiteSpace(s[k])
    ensures n < |s| ==> !IsWhiteSpace(s[n])
  {
    if s != [] && IsWhiteSpace(s[0]) then 1 + WhiteRun(s[1..]) else 0
  }

  /** Where `(?=(?:\d+\.|$))` succeeds: at the end of the text, or before digits followed by `.`. */
  predicate NumberAhead(s: string) {
    s == [] || (0 < DigitRun(s) < |s| && s[DigitRun(s)] == '.')
  }

  /**
   * The length of the match of `\d+\.\s*([^\d]+?)(?=(?:\d+\.|$))` that starts at `s[0]`, if any.
   * `\d+` must take the whole digit run, because a shorter run is followed by a digit and not by
   * `.`. The content `[^\d]+?` cannot pass a digit, and stopping before a non-digit fails the
   * lookahead, so the match always ends where the run of non-digits after the `.` ends, and the
   * lookahead must hold there. `\s*` gives back its last white-space character when that is the
   * only way to leave the content non-empty, so the content may consist of white space alone
   * (`"1. 2. x"` matches `"1. "` first); it fails only when a digit follows the `.` at once.
   */
  function MatchAt(s: string): (r: Option<nat>)
    ensures r.Some? ==> 3 <= r.value <= |s| && NumberedSegment(s[..r.value]) && NumberAhead(s[r.value..])
  {
    var d := DigitRun(s);
    if 0 < d < |s| && s[d] == '.' then
      var e := d + 1 + NonDigitRun(s[d + 1..]);
      if e > d + 1 && NumberAhead(s[e..]) then
        assert s[..e][..d] == s[..d];
        assert forall k :: d < k < e ==> s[..e][k] == s[d + 1..][..e - d - 1][k - d - 1];
        Some(e)
      else None
    else None
  }

  /** What every match looks like: digits, a `.`, then at least one character and no further digit. */
  predicate NumberedSegment(m: string) {
    var d := DigitRun(m);
    0 < d && d + 1 < |m| && m[d] == '.' && forall k :: d < k < |m| ==> !IsDigit(m[k])
  }

  /** `String.prototype.match` with the `g` flag: all matches from the left, `[]` standing for `null`. */
  function NumberedMatches(s: string): (ms: seq<string>)
    ensures forall m :: m in ms ==> NumberedSegment(m)
    decreases |s|
  {
    if s == [] then []
    else match MatchAt(s) {
      case Some(e) => [s[..e]] + NumberedMatches(s[e..])
      case None => NumberedMatches(s[1..])
    }
  }

  // `m.replace(/^\d+\.\s*/, '')`: drops a leading number, its `.` and the white space after it.
  function StripMarker(m: string): string {
    var d := DigitRun(m);
    if 0 < d < |m| && m[d] == '.' then m[d + 1 + WhiteRun(m[d + 1..])..] else m
  }

  /** What is left once the marker is stripped is a suffix of the match. */
  lemma StripMarkerSuffix(m: string)
    ensures |StripMarker(m)| <= |m| && StripMarker(m) == m[|m| - |StripMarker(m)|..]
  {
  }

  /** One list item: the match without its marker, trimmed. */
  function Item(m: string): string {
    Trim(StripMarker(m))
  }

  // `.map(m => m.replace(/^\d+\.\s*/, '').trim()).filter(m => m)`: the items, in match order.
  function Items(ms: seq<string>): (r: seq<string>)
    ensures |r| <= |ms|
    ensures forall k :: 0 <= k < |r| ==> r[k] != []
  {
    if ms == [] then []
    else
      var item, rest := Item(ms[0]), Items(ms[1..]);
      if item != [] then [item] + rest else rest
  }

  /** `splitExpected`. */
  function SplitExpected(raw: string): (r: seq<string>)
    ensures r != [] && forall k :: 0 <= k < |r| ==> r[k] != []
  {
    var text := Trim(RemoveEntities(raw));
    var fallback := if text != [] then [text] else ["none"];
    var matches := NumberedMatches(text);
    if matches != [] then
      var items := Items(matches);
      if items != [] then items else fallback
    else fallback
  }

  // ---------------------------------------------------------------------------------------------
  // Properties of splitExpected
  // ---------------------------------------------------------------------------------------------

  /** Each item is trimmed and holds no digit: its marker is gone and matches stop before digits. */
  lemma {:induction false} ItemShape(m: string)
    requires NumberedSegment(m)
    ensures DigitFree(Item(m)) && Trim(Item(m)) == Item(m)
  {
    var d := DigitRun(m);
    var r := StripMarker(m);
    StripMarkerSuffix(m);
    assert DigitFree(r) by {
      forall k | 0 <= k < |r| ensures !IsDigit(r[k]) {
        assert r[k] == m[|m| - |r| + k];
      }
    }
    TrimDigitFree(r);
    TrimIdempotent(r);
  }

  /** A finished item: trimmed and free of digits. */
  predicate CleanItem(x: string) {
    DigitFree(x) && Trim(x) == x
  }

  lemma {:induction false} ItemsShape(ms: seq<string>)
    requires forall m :: m in ms ==> NumberedSegment(m)
    ensures forall x :: x in Items(ms) ==> CleanItem(x)
  {
    if ms != [] {
      assert ms[0] in ms;
      ItemShape(ms[0]);
      assert forall m :: m in ms[1..] ==> m in ms;
      ItemsShape(ms[1..]);
      if Item(ms[0]) != [] {
        CleanConcat([Item(ms[0])], Items(ms[1..]));
      }
    }
  }

  lemma CleanConcat(a: seq<string>, b: seq<string>)
    requires forall x :: x in a ==> CleanItem(x)
    requires forall x :: x in b ==> CleanItem(x)
    ensures forall x :: x in a + b ==> CleanItem(x)
  {
  }

  /**
   * Which list `splitExpected` returns: the numbered items when at least one survives, otherwise
   * the single cleaned text, or `["none"]` when that is blank.
   */
  lemma {:induction false} SplitExpectedCases(raw: string)
    ensures var text := Trim(RemoveEntities(raw));
      var items := Items(NumberedMatches(text));
      SplitExpected(raw) == if items != [] then items else if text != [] then [text] else ["none"]
  {
  }

  /**
   * Every element of a result of `splitExpected` is trimmed, and when the numbered items are used
   * none of them holds a digit.
   */
  lemma {:induction false} SplitExpectedShape(raw: string)
    ensures forall x :: x in SplitExpected(raw) ==> x != [] && Trim(x) == x
    ensures Items(NumberedMatches(Trim(RemoveEntities(raw)))) != [] ==>
      forall x :: x in SplitExpected(raw) ==> DigitFree(x)
  {
    var text := Trim(RemoveEntities(raw));
    var matches := NumberedMatches(text);
    var r := SplitExpected(raw);
    SplitExpectedCases(raw);
    ItemsShape(matches);
    TrimIdempotent(RemoveEntities(raw));
    NoneTrimmed();
    ChoiceShape(Items(matches), text, "none", r);
  }

  /** The shape of the list `splitExpected` picks, from the shapes of the candidates. */
  lemma ChoiceShape(items: seq<string>, text: string, fallback: string, r: seq<string>)
    requires forall x :: x in items ==> CleanItem(x) && x != []
    requires Trim(text) == text && Trim(fallback) == fallback && fallback != []
    requires r == if items != [] then items else if text != [] then [text] else [fallback]
    ensures forall x :: x in r ==> x != [] && Trim(x) == x
    ensures items != [] ==> forall x :: x in r ==> DigitFree(x)
  {
  }

  /** Input that is blank once entities are removed and it is trimmed gives `["none"]`. */
  lemma {:induction false} SplitExpectedBlank(raw: string)
    requires Trim(RemoveEntities(raw)) == []
    ensures SplitExpected(raw) == ["none"]
  {
  }

  /** No digit of `s` is directly followed by `.`: there is no list marker anywhere. */
  predicate NoNumberMarker(s: string) {
    forall k :: 0 < k < |s| && s[k] == '.' ==> !IsDigit(s[k - 1])
  }

  lemma {:induction false} NoMarkerNoMatches(s: string)
    requires NoNumberMarker(s)
    ensures NumberedMatches(s) == []
  {
    if s != [] {
      var d := DigitRun(s);
      if 0 < d < |s| {
        assert s[..d][d - 1] == s[d - 1];
        assert s[d] != '.';
      }
      assert NoNumberMarker(s[1..]) by {
        forall k | 0 < k < |s| - 1 && s[1..][k] == '.' ensures !IsDigit(s[1..][k - 1]) {
          assert s[1..][k] == s[k + 1] && s[1..][k - 1] == s[k];
        }
      }
      NoMarkerNoMatches(s[1..]);
    }
  }

  /** Without a list marker the result is the single cleaned text. */
  lemma {:induction false} SplitExpectedWithoutMarker(raw: string)
    requires NoNumberMarker(Trim(RemoveEntities(raw)))
    ensures SplitExpected(raw) == var text := Trim(RemoveEntities(raw)); if text != [] then [text] else ["none"]
  {
    NoMarkerNoMatches(Trim(RemoveEntities(raw)));
  }

  /** A run of `d` digits ended by a non-digit is the whole leading digit run. */
  lemma {:induction false} DigitRunUpTo(s: string, d: nat)
    requires d < |s| && AllDigits(s[..d]) && !IsDigit(s[d])
    ensures DigitRun(s) == d
    decreases d
  {
    if d > 0 {
      assert IsDigit(s[..d][0]);
      assert s[1..][..d - 1] == s[1..d];
      DigitRunUpTo(s[1..], d - 1);
    }
  }

  /** A run of `n` non-digits ended by a digit or by the end of `s` is the whole leading run. */
  lemma {:induction false} NonDigitRunUpTo(s: string, n: nat)
    requires n <= |s| && DigitFree(s[..n]) && (n < |s| ==> IsDigit(s[n]))
    ensures NonDigitRun(s) == n
    decreases n
  {
    if n > 0 {
      assert !IsDigit(s[..n][0]);
      assert s[1..][..n - 1] == s[1..n];
      NonDigitRunUpTo(s[1..], n - 1);
    }
  }

  /**
   * The converse of `MatchAt`'s contract: a prefix of the numbered-segment shape that is followed
   * by the end of the text or by another `N.` is exactly the match found there.
   */
  lemma {:induction false} MatchAtComplete(s: string, e: nat)
    requires e <= |s| && NumberedSegment(s[..e]) && NumberAhead(s[e..])
    ensures MatchAt(s) == Some(e)
  {
    var m := s[..e];
    var d := DigitRun(m);
    assert s[..d] == m[..d];
    DigitRunUpTo(s, d);
    var t := s[d + 1..];
    var u := t[..e - d - 1];
    assert DigitFree(u) by {
      forall k | 0 <= k < |u| ensures !IsDigit(u[k]) {
        assert u[k] == m[d + 1 + k];
      }
    }
    if e < |s| {
      assert s[e..][0] == t[e - d - 1];
    }
    NonDigitRunUpTo(t, e - d - 1);
    MatchAtOf(s, d, e);
  }

  /** The global scan finds nothing exactly when no position of the text starts a match. */
  lemma {:induction false} NumberedMatchesEmpty(s: string)
    ensures NumberedMatches(s) == [] <==> forall i :: 0 <= i < |s| ==> MatchAt(s[i..]).None?
    decreases |s|
  {
    if s != [] {
      assert s[0..] == s;
      if MatchAt(s).None? {
        NumberedMatchesEmpty(s[1..]);
        forall i | 0 <= i < |s| - 1 ensures s[1..][i..] == s[i + 1..] { }
        assert (forall i :: 0 <= i < |s| ==> MatchAt(s[i..]).None?) <==>
               (forall i :: 0 <= i < |s[1..]| ==> MatchAt(s[1..][i..]).None?)
        by {
          if forall i :: 0 <= i < |s[1..]| ==> MatchAt(s[1..][i..]).None? {
            forall i | 0 <= i < |s| ensures MatchAt(s[i..]).None? {
              if i > 0 { assert s[i..] == s[1..][i - 1..]; }
            }
          }
        }
      }
    }
  }

  /**
   * When no position of the cleaned text starts a numbered match, `splitExpected` returns the
   * cleaned text itself, or `["none"]` for an empty one (`"1. Open 3 windows"` is such a text:
   * the digit `3` cuts the only candidate short of an `N.` or the end).
   */
  lemma {:induction false} SplitExpectedWithoutMatch(raw: string)
    requires var text := Trim(RemoveEntities(raw)); forall i :: 0 <= i < |text| ==> MatchAt(text[i..]).None?
    ensures SplitExpected(raw) == var text := Trim(RemoveEntities(raw)); if text != [] then [text] else ["none"]
  {
    NumberedMatchesEmpty(Trim(RemoveEntities(raw)));
  }

  /** Items written as a run-on numbered list from `n` on: `"1. a2. b…"`. */
  function Numbered(xs: seq<string>, n: nat): string {
    if xs == [] then "" else NatToString(n) + ". " + xs[0] + Numbered(xs[1..], n + 1)
  }

  /** The matches such a list yields: one segment per item. */
  function Segments(xs: seq<string>, n: nat): seq<string> {
    if xs == [] then [] else [NatToString(n) + ". " + xs[0]] + Segments(xs[1..], n + 1)
  }

  /** The non-empty items, in order. */
  function NonEmptyItems(xs: seq<string>): seq<string> {
    if xs == [] then [] else (if xs[0] != [] then [xs[0]] else []) + NonEmptyItems(xs[1..])
  }

  /** An item that survives the round trip: possibly empty, otherwise trimmed, without digits or `&`. */
  predicate PlainItem(x: string) {
    DigitFree(x) && '&' !in x && (x == [] || (!IsWhiteSpace(x[0]) && !IsWhiteSpace(x[|x| - 1])))
  }

  lemma {:induction false} DigitRunConcat(a: string, b: string)
    requires AllDigits(a) && (b == [] || !IsDigit(b[0]))
    ensures DigitRun(a + b) == |a|
  {
    if a != [] {
      assert (a + b)[1..] == a[1..] + b;
      DigitRunConcat(a[1..], b);
    }
  }

  lemma {:induction false} NonDigitRunConcat(a: string, b: string)
    requires DigitFree(a) && (b == [] || IsDigit(b[0]))
    ensures NonDigitRun(a + b) == |a|
  {
    if a != [] {
      assert (a + b)[1..] == a[1..] + b;
      NonDigitRunConcat(a[1..], b);
    }
  }

  lemma {:induction false} NumberedStart(xs: seq<string>, n: nat)
    ensures Numbered(xs, n) == [] || (|Numbered(xs, n)| > DigitRun(Numbered(xs, n)) > 0 && Numbered(xs, n)[DigitRun(Numbered(xs, n))] == '.')
    ensures xs != [] ==> Numbered(xs, n) != [] && IsDigit(Numbered(xs, n)[0])
  {
    if xs != [] {
      var s := Numbered(xs, n);
      assert s == NatToString(n) + (". " + xs[0] + Numbered(xs[1..], n + 1));
      DigitRunConcat(NatToString(n), ". " + xs[0] + Numbered(xs[1..], n + 1));
    }
  }

  lemma {:induction false} NumberedLast(xs: seq<string>, n: nat)
    requires xs != [] && xs[|xs| - 1] != [] && forall k :: 0 <= k < |xs| ==> PlainItem(xs[k])
    ensures var s := Numbered(xs, n); s != [] && !IsWhiteSpace(s[|s| - 1])
  {
    var s := Numbered(xs, n);
    var rest := Numbered(xs[1..], n + 1);
    assert s == NatToString(n) + ". " + xs[0] + rest;
    if |xs| > 1 {
      NumberedLast(xs[1..], n + 1);
      assert s[|s| - 1] == rest[|rest| - 1];
    } else {
      assert PlainItem(xs[0]);
      assert s[|s| - 1] == xs[0][|xs[0]| - 1];
    }
  }

  lemma {:induction false} NumberedNoAmp(xs: seq<string>, n: nat)
    requires forall k :: 0 <= k < |xs| ==> PlainItem(xs[k])
    ensures '&' !in Numbered(xs, n)
  {
    if xs != [] {
      NumberedNoAmp(xs[1..], n + 1);
    }
  }

  /** A marker, a space and a digit-free item, followed by what the lookahead accepts, match as one segment. */
  lemma MatchAtSegment(num: string, x: string, rest: string)
    requires num != [] && AllDigits(num) && DigitFree(x)
    requires NumberAhead(rest) && (rest == [] || IsDigit(rest[0]))
    ensures var seg := num + ". " + x;
      MatchAt(seg + rest) == Some(|seg|) && (seg + rest)[..|seg|] == seg && (seg + rest)[|seg|..] == rest
  {
    var seg := num + ". " + x;
    var s := num + ("." + ((" " + x) + rest));
    SegmentRegrouped(num, x, rest);
    MatchAtDot(num, " " + x, rest);
    MatchAtOf(s, |num|, |seg|);
  }

  lemma SegmentRegrouped(num: string, x: string, rest: string)
    ensures num + ". " + x + rest == num + ("." + ((" " + x) + rest))
  {
    assert ". " == "." + " ";
  }

  /** The runs `MatchAt` measures on a digit run, a `.`, a digit-free `u` and what follows. */
  lemma MatchAtDot(num: string, u: string, rest: string)
    requires AllDigits(num) && DigitFree(u) && (rest == [] || IsDigit(rest[0]))
    ensures var s := num + ("." + (u + rest));
      DigitRun(s) == |num| && s[|num|] == '.' && NonDigitRun(s[|num| + 1..]) == |u|
      && s[|num| + 1 + |u|..] == rest
  {
    var t := u + rest;
    var s := num + ("." + t);
    DotAfterDigits(num, t);
    NonDigitRunConcat(u, rest);
    assert s[|num| + 1 + |u|..] == t[|u|..] == rest;
  }

  /** `MatchAt` in terms of the two runs it measures. */
  lemma MatchAtOf(s: string, d: nat, e: nat)
    requires 0 < d < |s| && DigitRun(s) == d && s[d] == '.'
    requires d + 1 < e <= |s| && NonDigitRun(s[d + 1..]) == e - d - 1 && NumberAhead(s[e..])
    ensures MatchAt(s) == Some(e)
  {
    assert d + 1 + NonDigitRun(s[d + 1..]) == e;
    assert e > d + 1 && NumberAhead(s[e..]);
  }

  lemma {:induction false} NumberedMatchesOf(xs: seq<string>, n: nat)
    requires forall k :: 0 <= k < |xs| ==> PlainItem(xs[k])
    requires xs != [] ==> xs[|xs| - 1] != []
    ensures NumberedMatches(Numbered(xs, n)) == Segments(xs, n)
  {
    if xs != [] {
      var num, x, rest := NatToString(n), xs[0], Numbered(xs[1..], n + 1);
      var seg := num + ". " + x;
      assert seg + rest == Numbered(xs, n);
      NumberedStart(xs[1..], n + 1);
      assert PlainItem(x);
      MatchAtSegment(num, x, rest);
      MatchesStep(seg + rest, |seg|);
      NumberedMatchesOf(xs[1..], n + 1);
    }
  }

  /** A match at the start of `s` is the first of the matches; the search goes on after it. */
  lemma MatchesStep(s: string, e: nat)
    requires s != [] && MatchAt(s) == Some(e)
    ensures NumberedMatches(s) == [s[..e]] + NumberedMatches(s[e..])
  {
  }

  /** The item of one segment is the item it was numbered from. */
  lemma ItemOfSegment(num: string, x: string)
    requires num != [] && AllDigits(num) && PlainItem(x)
    ensures Item(num + ". " + x) == x
  {
    MarkerOfSegment(num, x);
    if x != [] {
      TrimOfTrimmed(x);
    }
  }

  lemma MarkerOfSegment(num: string, x: string)
    requires num != [] && AllDigits(num) && (x == [] || !IsWhiteSpace(x[0]))
    ensures StripMarker(num + ". " + x) == x
  {
    var t := " " + x;
    var s := num + ("." + t);
    assert num + ". " + x == s by {
      assert ". " == "." + " ";
    }
    DotAfterDigits(num, t);
    assert WhiteRun(t) == 1 by {
      assert t[1..] == x;
    }
    StripMarkerOf(s, |num|, 1);
    assert s[|num| + 2..] == s[|num| + 1..][1..];
  }

  /** A digit run followed by a `.`: the run ends at the `.`, and after it comes `t`. */
  lemma DotAfterDigits(num: string, t: string)
    requires AllDigits(num)
    ensures var s := num + ("." + t);
      DigitRun(s) == |num| && s[|num|] == '.' && s[|num| + 1..] == t
  {
    var s := num + ("." + t);
    DigitRunConcat(num, "." + t);
    assert s[|num|..] == "." + t;
    assert s[|num| + 1..] == ("." + t)[1..];
  }

  /** `StripMarker` in terms of the two runs it measures. */
  lemma StripMarkerOf(m: string, d: nat, w: nat)
    requires 0 < d < |m| && DigitRun(m) == d && m[d] == '.' && WhiteRun(m[d + 1..]) == w
    ensures StripMarker(m) == m[d + 1 + w..]
  {
  }

  lemma {:induction false} ItemsOfSegments(xs: seq<string>, n: nat)
    requires forall k :: 0 <= k < |xs| ==> PlainItem(xs[k])
    ensures Items(Segments(xs, n)) == NonEmptyItems(xs)
  {
    if xs != [] {
      ItemOfSegment(NatToString(n), xs[0]);
      ItemsOfSegments(xs[1..], n + 1);
    }
  }

  /** No match starts at a character that is not a digit. */
  lemma {:induction false} MatchNeedsDigit(t: string)
    requires t != [] && !IsDigit(t[0])
    ensures MatchAt(t) == None
  {
  }

  /** After a failed attempt, `match` moves one character on. */
  lemma {:induction false} MatchesAfterMiss(t: string)
    requires t != [] && MatchAt(t) == None
    ensures NumberedMatches(t) == NumberedMatches(t[1..])
  {
  }

  lemma {:induction false} NumberedMatchesSkip(p: string, s: string)
    requires DigitFree(p)
    ensures NumberedMatches(p + s) == NumberedMatches(s)
  {
    if p != [] {
      var t := p + s;
      assert t[0] == p[0];
      MatchNeedsDigit(t);
      MatchesAfterMiss(t);
      assert t[1..] == p[1..] + s;
      assert DigitFree(p[1..]) by {
        forall k | 0 <= k < |p| - 1 ensures !IsDigit(p[1..][k]) {
          assert p[1..][k] == p[k + 1];
        }
      }
      NumberedMatchesSkip(p[1..], s);
    } else {
      assert p + s == s;
    }
  }

  /** A list without empty items keeps all of them. */
  lemma {:induction false} NonEmptyItemsAll(xs: seq<string>)
    requires forall k :: 0 <= k < |xs| ==> xs[k] != []
    ensures NonEmptyItems(xs) == xs
  {
    if xs != [] {
      NonEmptyItemsAll(xs[1..]);
    }
  }

  lemma {:induction false} NonEmptyItemsOfLast(xs: seq<string>)
    requires xs != [] && xs[|xs| - 1] != []
    ensures NonEmptyItems(xs) != []
  {
    if xs[0] == [] {
      NonEmptyItemsOfLast(xs[1..]);
    }
  }

  /**
   * Round trip: a run-on numbered list, after a prefix without digits, splits back into its
   * non-empty items. The prefix is dropped and items left empty by the numbering are filtered out.
   */
  lemma {:induction false} SplitExpectedOfNumbered(prefix: string, xs: seq<string>)
    requires DigitFree(prefix) && '&' !in prefix && (prefix == [] || !IsWhiteSpace(prefix[0]))
    requires xs != [] && xs[|xs| - 1] != [] && forall k :: 0 <= k < |xs| ==> PlainItem(xs[k])
    ensures SplitExpected(prefix + Numbered(xs, 1)) == NonEmptyItems(xs)
  {
    var text := prefix + Numbered(xs, 1);
    CleanNumbered(prefix, xs);
    assert NumberedMatches(text) == Segments(xs, 1) by {
      NumberedMatchesSkip(prefix, Numbered(xs, 1));
      NumberedMatchesOf(xs, 1);
    }
    ItemsOfSegments(xs, 1);
    NonEmptyItemsOfLast(xs);
  }

  /** Two plain, non-empty items numbered from 1 split back into themselves. */
  lemma {:induction false} SplitTwoItems(a: string, b: string)
    requires PlainItem(a) && PlainItem(b) && a != [] && b != []
    ensures SplitExpected(Numbered([a, b], 1)) == [a, b]
  {
    var xs := [a, b];
    NonEmptyItemsAll(xs);
    assert "" + Numbered(xs, 1) == Numbered(xs, 1);
    SplitExpectedOfNumbered("", xs);
  }

  /** The items of the example in `splitExpected`'s documentation. */
  const DocumentedItems: seq<string> := ["First step", "Second step"]

  /** Numbering the documented items gives the documented run-on text. */
  lemma {:induction false} DocumentedExampleText()
    ensures Numbered(DocumentedItems, 1) == "1. First step2. Second step"
  {
    NumberedTwo("First step", "Second step");
    DocumentedPieces();
  }

  lemma DocumentedPieces()
    ensures "1. " + "First step" + "2. " + "Second step" == "1. First step2. Second step"
  {
    assert "1. " + "First step" == "1. First step";
    assert "2. " + "Second step" == "2. Second step";
    assert "1. First step" + "2. Second step" == "1. First step2. Second step";
  }

  lemma NumberedTwo(a: string, b: string)
    ensures Numbered([a, b], 1) == "1. " + a + "2. " + b
  {
    assert [a, b][1..] == [b] && [b][1..] == [];
    assert NatToString(1) == "1" && NatToString(2) == "2";
    assert Numbered([b], 2) == "2" + ". " + b + "";
    assert "1" + ". " == "1. " && "2" + ". " == "2. ";
  }

  /** The documented example: that text splits into `["First step", "Second step"]`. */
  lemma {:induction false} DocumentedExampleSplit()
    ensures SplitExpected(Numbered(DocumentedItems, 1)) == DocumentedItems
  {
    var xs := DocumentedItems;
    assert PlainItem(xs[0]) && PlainItem(xs[1]);
    SplitTwoItems(xs[0], xs[1]);
    assert [xs[0], xs[1]] == xs;
  }

  /** Such a text has no entity and no surrounding white space: cleaning leaves it as it is. */
  lemma {:induction false} CleanNumbered(prefix: string, xs: seq<string>)
    requires '&' !in prefix && (prefix == [] || !IsWhiteSpace(prefix[0]))
    requires xs != [] && xs[|xs| - 1] != [] && forall k :: 0 <= k < |xs| ==> PlainItem(xs[k])
    ensures Trim(RemoveEntities(prefix + Numbered(xs, 1))) == prefix + Numbered(xs, 1)
  {
    var body := Numbered(xs, 1);
    NumberedNoAmp(xs, 1);
    NumberedStart(xs, 1);
    NumberedLast(xs, 1);
    CleanText(prefix, body);
  }

  lemma {:induction false} CleanText(prefix: string, body: string)
    requires '&' !in prefix && (prefix == [] || !IsWhiteSpace(prefix[0]))
    requires '&' !in body && body != [] && !IsWhiteSpace(body[0]) && !IsWhiteSpace(body[|body| - 1])
    ensures Trim(RemoveEntities(prefix + body)) == prefix + body
  {
    var text := prefix + body;
    if prefix == [] {
      assert text == body;
    }
    assert text[|text| - 1] == body[|body| - 1];
    RemoveEntitiesWithoutAmp(text);
    TrimOfTrimmed(text);
  }

  // ---------------------------------------------------------------------------------------------
  // getStepsFromTestcase: text contents -> trimmed -> stripTags -> (action, expected) pairs
  // ---------------------------------------------------------------------------------------------

  /** One step of a test case, numbered from 1. */
  datatype TestStep = TestStep(step: nat, action: string, expectedResult: seq<string>)

  /** The steps of a test case, in document order. */
  datatype TestCaseResult = TestCaseResult(steps: seq<TestStep>)

  /** JavaScript's `s || d` on a string: the empty string is falsy. */
  function OrElse(s: string, d: string): string {
    if s != [] then s else d
  }

  /** The cleaned strings: each text content trimmed (`|| ''` keeps it), then passed to stripTags. */
  function Cleaned(texts: seq<string>): (r: seq<string>)
    ensures |r| == |texts|
  {
    seq(|texts|, k requires 0 <= k < |texts| => StripTags(OrElse(Trim(texts[k]), "")))
  }

  /**
   * The step built from the `j`-th pair: the action is the string at `2j`, the expected result
   * the string at `2j + 1` (or "none" when the pair has no second half) run through splitExpected.
   */
  function StepAt(clean: seq<string>, j: nat): TestStep
    requires 2 * j < |clean|
  {
    TestStep(j + 1, OrElse(clean[2 * j], ""), SplitExpected(ExpectedRaw(clean, 2 * j + 1)))
  }

  lemma StepAtPair(clean: seq<string>, i: nat, n: nat)
    requires 1 <= n && i == 2 * (n - 1) && i < |clean|
    ensures StepAt(clean, n - 1) == TestStep(n, OrElse(clean[i], ""), SplitExpected(ExpectedRaw(clean, i + 1)))
  {
  }

  /** Appending the step built from the pair at `i` extends a correct prefix of the steps by one. */
  lemma AppendStepAt(clean: seq<string>, steps: seq<TestStep>, i: nat, n: nat, step: TestStep)
    requires 1 <= n && i == 2 * (n - 1) && i < |clean| && |steps| == n - 1
    requires forall k :: 0 <= k < |steps| ==> steps[k] == StepAt(clean, k)
    requires step == TestStep(n, OrElse(clean[i], ""), SplitExpected(ExpectedRaw(clean, i + 1)))
    ensures forall k :: 0 <= k < |steps| + 1 ==> (steps + [step])[k] == StepAt(clean, k)
  {
    StepAtPair(clean, i, n);
    forall k | 0 <= k < |steps| + 1 ensures (steps + [step])[k] == StepAt(clean, k) {
      if k < |steps| { assert (steps + [step])[k] == steps[k]; } else { assert (steps + [step])[k] == step; }
    }
  }

  /** `clean[i] || 'none'`, where an index past the end reads as `undefined`. */
  function ExpectedRaw(clean: seq<string>, i: nat): string {
    if i < |clean| then OrElse(clean[i], "none") else "none"
  }

  /** The steps the text contents give: one per pair of cleaned strings. */
  function StepsFor(texts: seq<string>): (r: TestCaseResult)
    ensures |r.steps| == (|texts| + 1) / 2
    ensures forall j :: 0 <= j < |r.steps| ==> r.steps[j] == StepAt(Cleaned(texts), j)
  {
    var clean := Cleaned(texts);
    TestCaseResult(seq((|texts| + 1) / 2, j requires 0 <= j < (|texts| + 1) / 2 => StepAt(clean, j)))
  }

  /**
   * getStepsFromTestcase over the text contents of the `<parameterizedString>` elements: collect
   * each trimmed text, strip the tags of each, then pair the cleaned strings up into steps.
   */
  method ExtractSteps(texts: seq<string>) returns (result: TestCaseResult)
    ensures |result.steps| == (|texts| + 1) / 2
    ensures forall j :: 0 <= j < |result.steps| ==> result.steps[j] == StepAt(Cleaned(texts), j)
    ensures result == StepsFor(texts)
  {
    var paramStrings := CollectTexts(texts);
    var clean := seq(|paramStrings|, k requires 0 <= k < |paramStrings| => StripTags(paramStrings[k]));
    assert clean == Cleaned(texts);
    var steps := PairUp(clean);
    result := TestCaseResult(steps);
    assert result.steps == StepsFor(texts).steps;
  }

  /** The push loop: each text content, trimmed, in element order. */
  method CollectTexts(texts: seq<string>) returns (paramStrings: seq<string>)
    ensures |paramStrings| == |texts|
    ensures forall k :: 0 <= k < |texts| ==> paramStrings[k] == Trim(texts[k])
  {
    paramStrings := [];
    var i := 0;
    while i < |texts|
      invariant 0 <= i <= |texts|
      invariant |paramStrings| == i
      invariant forall k :: 0 <= k < i ==> paramStrings[k] == Trim(texts[k])
    {
      paramStrings := paramStrings + [OrElse(Trim(texts[i]), "")];
      i := i + 1;
    }
  }

  /**
   * The pairing loop: walk the cleaned strings two at a time, the first of each pair the action
   * and the second (or "none") the raw expected result, numbering the steps from 1.
   */
  method PairUp(clean: seq<string>) returns (steps: seq<TestStep>)
    ensures |steps| == (|clean| + 1) / 2
    ensures forall j :: 0 <= j < |steps| ==> steps[j] == StepAt(clean, j)
  {
    steps := [];
    var stepNumber := 1;
    var i := 0;
    while i < |clean|
      invariant i == 2 * (stepNumber - 1) && 1 <= stepNumber
      invariant |steps| == stepNumber - 1
      invariant i <= |clean| + 1
      invariant forall j :: 0 <= j < |steps| ==> steps[j] == StepAt(clean, j)
    {
      var action := OrElse(clean[i], "");
      var expectedRaw := ExpectedRaw(clean, i + 1);
      var expected := SplitExpected(expectedRaw);
      var step := TestStep(stepNumber, action, expected);
      AppendStepAt(clean, steps, i, stepNumber, step);
      steps := steps + [step];
      stepNumber := stepNumber + 1;
      i := i + 2;
    }
  }

  /** The cleaned string at `k` is the stripped, trimmed text content there (`|| ''` keeps it). */
  lemma {:induction false} CleanedAt(texts: seq<string>, k: nat)
    requires k < |texts|
    ensures Cleaned(texts)[k] == StripTags(Trim(texts[k]))
  {
    assert OrElse(Trim(texts[k]), "") == Trim(texts[k]);
  }

  /** Any step is numbered from 1 and has a non-empty list of non-empty, trimmed expected results. */
  lemma {:induction false} StepAtShape(clean: seq<string>, j: nat)
    requires 2 * j < |clean|
    ensures StepAt(clean, j).step == j + 1
    ensures StepAt(clean, j).action == OrElse(clean[2 * j], "")
    ensures StepAt(clean, j).expectedResult != []
    ensures forall x :: x in StepAt(clean, j).expectedResult ==> x != [] && Trim(x) == x
  {
    SplitExpectedShape(ExpectedRaw(clean, 2 * j + 1));
  }

  /** Every step has a non-empty action and a non-empty list of non-empty, trimmed expected results. */
  lemma {:induction false} ExtractedStepShape(texts: seq<string>, j: nat)
    requires 2 * j < |texts|
    ensures StepAt(Cleaned(texts), j).step == j + 1
    ensures StepAt(Cleaned(texts), j).action != []
    ensures StepAt(Cleaned(texts), j).action == StripTags(Trim(texts[2 * j]))
    ensures StepAt(Cleaned(texts), j).expectedResult != []
    ensures forall x :: x in StepAt(Cleaned(texts), j).expectedResult ==> x != [] && Trim(x) == x
  {
    StepAtShape(Cleaned(texts), j);
    CleanedAt(texts, 2 * j);
  }

  /** A single trimmed word without digits or `&` is its own split. */
  lemma SplitExpectedOfWord(w: string)
    requires w != [] && '&' !in w && DigitFree(w) && !IsWhiteSpace(w[0]) && !IsWhiteSpace(w[|w| - 1])
    ensures SplitExpected(w) == [w]
  {
    RemoveEntitiesWithoutAmp(w);
    TrimOfTrimmed(w);
    SplitExpectedWithoutMarker(w);
  }

  /** splitExpected("none") is ["none"]: the fallback of a missing expected result survives the split. */
  lemma SplitExpectedNone()
    ensures SplitExpected("none") == ["none"]
  {
    SplitExpectedOfWord("none");
  }
}
