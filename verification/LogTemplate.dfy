/** pkg/manager/route/middleware_logger_config.go: the template of the access log. */
module LogTemplate {
  import opened Wrappers

  // ---------------------------------------------------------------- searching

  predicate OccursAt(s: string, p: string, i: int) {
    0 <= i <= |s| - |p| && s[i..i + |p|] == p
  }

  ghost predicate FreeOf(s: string, p: string) {
    forall i :: !OccursAt(s, p, i)
  }

  /** The first occurrence at or after `from`, or -1. */
  function IndexFrom(s: string, p: string, from: nat): (r: int)
    ensures r == -1 || from <= r <= |s| - |p|
    decreases |s| - from
  {
    if from + |p| > |s| then -1
    else if OccursAt(s, p, from) then from
    else IndexFrom(s, p, from + 1)
  }

  function Index(s: string, p: string): (r: int)
    ensures r == -1 || 0 <= r <= |s| - |p|
  {
    IndexFrom(s, p, 0)
  }

  lemma {:induction false} IndexFromIsFirst(s: string, p: string, from: nat)
    ensures var r := IndexFrom(s, p, from);
      && (forall i :: from <= i && (r < 0 || i < r) ==> !OccursAt(s, p, i))
      && (r >= 0 ==> OccursAt(s, p, r))
    decreases |s| - from
  {
    if from + |p| <= |s| && !OccursAt(s, p, from) {
      IndexFromIsFirst(s, p, from + 1);
    }
  }

  lemma IndexIsFirst(s: string, p: string)
    ensures var r := Index(s, p);
      && (r < 0 <==> FreeOf(s, p))
      && (r >= 0 ==> OccursAt(s, p, r) && forall i :: i < r ==> !OccursAt(s, p, i))
  {
    IndexFromIsFirst(s, p, 0);
  }

  /** No end of `p` is a beginning of it. */
  ghost predicate Unbordered(p: string) {
    forall k :: 0 < k < |p| ==> p[..k] != p[|p| - k..]
  }

  /** What comes before the first occurrence has none of its own. */
  lemma FreeBeforeIndex(s: string, p: string)
    requires p != "" && Index(s, p) >= 0
    ensures FreeOf(s[..Index(s, p)], p)
  {
    IndexIsFirst(s, p);
    var n := Index(s, p);
    forall i | OccursAt(s[..n], p, i) ensures false {
      assert s[..n][i..i + |p|] == s[i..i + |p|];
      assert OccursAt(s, p, i);
    }
  }

  /** An occurrence that overlaps the one put behind `t` makes a border. */
  lemma OverlapIsBorder(t: string, p: string, rest: string, i: nat)
    requires i < |t| < i + |p| && OccursAt(t + p + rest, p, i)
    ensures var k := i + |p| - |t|; 0 < k < |p| && p[..k] == p[|p| - k..]
  {
    var s, k := t + p + rest, i + |p| - |t|;
    assert p[..k] == s[|t|..i + |p|];
    assert s[i..i + |p|][|p| - k..] == s[|t|..i + |p|];
  }

  /** A delimiter that cannot overlap itself is found where it was put. */
  lemma FoundWherePut(t: string, p: string, rest: string)
    requires p != "" && Unbordered(p) && FreeOf(t, p)
    ensures Index(t + p + rest, p) == |t|
  {
    var s := t + p + rest;
    assert s[|t|..|t| + |p|] == p;
    assert OccursAt(s, p, |t|);
    IndexIsFirst(s, p);
    forall i: nat | i < |t| ensures !OccursAt(s, p, i) {
      if i + |p| <= |t| {
        assert t[i..i + |p|] == s[i..i + |p|];
        assert !OccursAt(t, p, i);
      } else if OccursAt(s, p, i) {
        OverlapIsBorder(t, p, rest, i);
      }
    }
  }

  /** One that can is found too early after some text free of it. */
  lemma FoundTooEarly(p: string, k: nat, rest: string)
    requires 0 < k < |p| && p[..k] == p[|p| - k..]
    ensures FreeOf(p[..|p| - k], p)
    ensures Index(p[..|p| - k] + p + rest, p) == 0
  {
    var t := p[..|p| - k];
    var s := t + p + rest;
    assert s[..|p|] == t + p[..k];
    assert t + p[|p| - k..] == p;
    assert OccursAt(s, p, 0);
    IndexIsFirst(s, p);
  }

  // ---------------------------------------------------------------- the parser

  datatype Parsed = Parsed(texts: seq<string>, tags: seq<string>, ok: bool)

  function Behind(text: string, tag: string, p: Parsed): Parsed {
    Parsed([text] + p.texts, [tag] + p.tags, p.ok)
  }

  /** The text before the next tag, the tag, and what is behind it. */
  datatype Cut = NoStart | NoEnd(text: string) | Cut(text: string, tag: string, tail: string)

  function NextTag(s: string, a: string, b: string): (r: Cut)
    ensures r.Cut? && (a != "" || b != "") ==> |r.tail| < |s|
  {
    var n := Index(s, a);
    if n < 0 then NoStart
    else
      var after := s[n + |a|..];
      var m := Index(after, b);
      if m < 0 then NoEnd(s[..n]) else Cut(s[..n], after[..m], after[m + |b|..])
  }

  function Parse(s: string, a: string, b: string): Parsed
    requires a != "" || b != ""
    decreases |s|
  {
    match NextTag(s, a, b)
    case NoStart => Parsed([s], [], true)
    case NoEnd(text) => Parsed([text], [], false)
    case Cut(text, tag, tail) => Behind(text, tag, Parse(tail, a, b))
  }

  /** Texts and tags in turn, each tag between its delimiters. */
  function Weave(texts: seq<string>, tags: seq<string>, a: string, b: string): string
    requires |texts| == |tags| + 1
  {
    if tags == [] then texts[0]
    else texts[0] + a + (tags[0] + b + Weave(texts[1..], tags[1..], a, b))
  }

  /** No text holds a start tag, no tag holds an end tag. */
  ghost predicate Clean(texts: seq<string>, tags: seq<string>, a: string, b: string) {
    && |texts| == |tags| + 1
    && (forall i :: 0 <= i < |texts| ==> FreeOf(texts[i], a))
    && (forall i :: 0 <= i < |tags| ==> FreeOf(tags[i], b))
  }

  lemma WeaveBehind(text: string, tag: string, p: Parsed, a: string, b: string)
    requires |p.texts| == |p.tags| + 1
    ensures var q := Behind(text, tag, p);
      && |q.texts| == |q.tags| + 1
      && Weave(q.texts, q.tags, a, b) == text + a + (tag + b + Weave(p.texts, p.tags, a, b))
      && (Clean(q.texts, q.tags, a, b) <==> FreeOf(text, a) && FreeOf(tag, b) && Clean(p.texts, p.tags, a, b))
  {
    var q := Behind(text, tag, p);
    assert q.texts[1..] == p.texts && q.tags[1..] == p.tags;
    assert forall i :: 0 <= i < |p.texts| ==> p.texts[i] == q.texts[i + 1];
    assert forall i :: 0 <= i < |p.tags| ==> p.tags[i] == q.tags[i + 1];
  }

  lemma NextTagCutsExactly(s: string, a: string, b: string)
    requires a != "" && b != "" && NextTag(s, a, b).Cut?
    ensures var c := NextTag(s, a, b);
      && s == c.text + a + (c.tag + b + c.tail)
      && FreeOf(c.text, a)
      && FreeOf(c.tag, b)
  {
    var n := Index(s, a);
    var after := s[n + |a|..];
    IndexIsFirst(s, a);
    IndexIsFirst(after, b);
    FreeBeforeIndex(s, a);
    FreeBeforeIndex(after, b);
    CutAt(s, a, n);
    CutAt(after, b, Index(after, b));
  }

  lemma CutAt(s: string, p: string, n: nat)
    requires OccursAt(s, p, n)
    ensures s == s[..n] + p + s[n + |p|..]
  {
  }

  lemma NextTagOfWoven(text: string, tag: string, tail: string, a: string, b: string)
    requires a != "" && b != "" && Unbordered(a) && Unbordered(b)
    requires FreeOf(text, a) && FreeOf(tag, b)
    ensures NextTag(text + a + (tag + b + tail), a, b) == Cut(text, tag, tail)
  {
    FoundWherePut(text, a, tag + b + tail);
    FoundWherePut(tag, b, tail);
    CutAtJoint(text, a, tag + b + tail);
    CutAtJoint(tag, b, tail);
  }

  lemma CutAtJoint(t: string, p: string, rest: string)
    ensures (t + p + rest)[..|t|] == t && (t + p + rest)[|t| + |p|..] == rest
  {
  }

  /** A template that parses is its parts woven together again, and the parts are clean. */
  lemma {:induction false} WeaveUndoesParse(s: string, a: string, b: string)
    requires a != "" && b != ""
    ensures var p := Parse(s, a, b);
      p.ok ==> Clean(p.texts, p.tags, a, b) && Weave(p.texts, p.tags, a, b) == s
    decreases |s|
  {
    var c := NextTag(s, a, b);
    IndexIsFirst(s, a);
    if c.Cut? {
      WeaveUndoesParse(c.tail, a, b);
      if Parse(c.tail, a, b).ok {
        NextTagCutsExactly(s, a, b);
        WeaveBehind(c.text, c.tag, Parse(c.tail, a, b), a, b);
      }
    }
  }

  /** Clean parts woven together parse back into themselves. */
  lemma {:induction false} ParseUndoesWeave(texts: seq<string>, tags: seq<string>, a: string, b: string)
    requires a != "" && b != "" && Unbordered(a) && Unbordered(b)
    requires Clean(texts, tags, a, b)
    ensures Parse(Weave(texts, tags, a, b), a, b) == Parsed(texts, tags, true)
    decreases |tags|
  {
    if tags == [] {
      IndexIsFirst(texts[0], a);
      assert texts == [texts[0]];
    } else {
      var rest := Parsed(texts[1..], tags[1..], true);
      var tail := Weave(rest.texts, rest.tags, a, b);
      assert Behind(texts[0], tags[0], rest) == Parsed(texts, tags, true);
      WeaveBehind(texts[0], tags[0], rest, a, b);
      ParseUndoesWeave(texts[1..], tags[1..], a, b);
      NextTagOfWoven(texts[0], tags[0], tail, a, b);
    }
  }

  /** Every weaving of clean parts parses back. */
  ghost predicate Invertible(a: string, b: string)
    requires a != "" && b != ""
  {
    forall texts, tags :: Clean(texts, tags, a, b) ==>
      Parse(Weave(texts, tags, a, b), a, b) == Parsed(texts, tags, true)
  }

  lemma EmptyIsFree(p: string)
    requires p != ""
    ensures FreeOf("", p)
  {
  }

  /** A text that runs into the start tag behind it is lost. */
  lemma BorderedStartLosesText(a: string, b: string, k: nat)
    requires a != "" && b != "" && 0 < k < |a| && a[..k] == a[|a| - k..]
    ensures var t := a[..|a| - k];
      Clean([t, ""], [""], a, b) && Parse(Weave([t, ""], [""], a, b), a, b) != Parsed([t, ""], [""], true)
  {
    var t, after := a[..|a| - k], "" + b + "";
    EmptyIsFree(a);
    EmptyIsFree(b);
    FoundTooEarly(a, k, after);
    assert Weave([t, ""], [""], a, b) == t + a + after;
  }

  lemma BorderedEndLosesTag(a: string, b: string, k: nat)
    requires a != "" && b != "" && Unbordered(a) && 0 < k < |b| && b[..k] == b[|b| - k..]
    ensures var t := b[..|b| - k];
      Clean(["", ""], [t], a, b) && Parse(Weave(["", ""], [t], a, b), a, b) != Parsed(["", ""], [t], true)
  {
    var t := b[..|b| - k];
    var after := t + b + "";
    EmptyIsFree(a);
    FoundTooEarly(b, k, "");
    FoundWherePut("", a, after);
    var s := "" + a + after;
    assert Weave(["", ""], [t], a, b) == s;
    assert s[0 + |a|..] == after;
  }

  /** Which is so exactly for delimiters that cannot overlap themselves. */
  lemma InvertibleIffUnbordered(a: string, b: string)
    requires a != "" && b != ""
    ensures Invertible(a, b) <==> Unbordered(a) && Unbordered(b)
  {
    if Unbordered(a) && Unbordered(b) {
      forall texts, tags | Clean(texts, tags, a, b)
        ensures Parse(Weave(texts, tags, a, b), a, b) == Parsed(texts, tags, true)
      {
        ParseUndoesWeave(texts, tags, a, b);
      }
    } else if !Unbordered(a) {
      var k :| 0 < k < |a| && a[..k] == a[|a| - k..];
      BorderedStartLosesText(a, b, k);
    } else {
      var k :| 0 < k < |b| && b[..k] == b[|b| - k..];
      BorderedEndLosesTag(a, b, k);
    }
  }

  /** The delimiters in use. */
  lemma DollarBraceInvertible()
    ensures Invertible("${", "}")
  {
    assert "${"[..1] == "$" && "${"[1..] == "{";
    InvertibleIffUnbordered("${", "}");
  }

  /** The parse of `whole` is what the loop has gathered, and then the parse of `s`. */
  ghost predicate Gathered(whole: Parsed, texts: seq<string>, tags: seq<string>, s: string, a: string, b: string)
    requires a != "" || b != ""
  {
    var p := Parse(s, a, b);
    whole == Parsed(texts + p.texts, tags + p.tags, p.ok)
  }

  lemma GatherNone(s: string, a: string, b: string)
    requires a != "" || b != ""
    ensures Gathered(Parse(s, a, b), [], [], s, a, b)
  {
  }

  lemma GatherOne(whole: Parsed, texts: seq<string>, tags: seq<string>, s: string, a: string, b: string)
    requires (a != "" || b != "") && Gathered(whole, texts, tags, s, a, b)
    ensures var c := NextTag(s, a, b);
      && (c.NoStart? ==> whole == Parsed(texts + [s], tags, true))
      && (c.NoEnd? ==> whole == Parsed(texts + [c.text], tags, false))
      && (c.Cut? ==> Gathered(whole, texts + [c.text], tags + [c.tag], c.tail, a, b))
  {
    var c := NextTag(s, a, b);
    assert tags + [] == tags;
    if c.Cut? {
      var p := Parse(c.tail, a, b);
      assert texts + ([c.text] + p.texts) == texts + [c.text] + p.texts;
      assert tags + ([c.tag] + p.tags) == tags + [c.tag] + p.tags;
    }
  }

  /** Without a start tag the parser hands out nothing at all, not even the text. */
  method ParseTemplate(template: string, a: string, b: string)
    returns (texts: seq<string>, tags: seq<string>, failed: bool)
    requires a != "" || b != ""
    ensures FreeOf(template, a) ==> texts == [] && tags == [] && !failed
    ensures !FreeOf(template, a) ==> Parsed(texts, tags, !failed) == Parse(template, a, b)
  {
    texts, tags, failed := [], [], false;
    assert FreeOf(template, a) <==> Index(template, a) < 0 by {
      IndexIsFirst(template, a);
    }
    if Index(template, a) < 0 {
      return;
    }
    ghost var whole := Parse(template, a, b);
    GatherNone(template, a, b);
    var s := template;
    while true
      invariant !failed && Gathered(whole, texts, tags, s, a, b)
      decreases |s|
    {
      GatherOne(whole, texts, tags, s, a, b);
      ghost var c := NextTag(s, a, b);
      var n := Index(s, a);
      if n < 0 {
        texts := texts + [s];
        break;
      }
      texts := texts + [s[..n]];
      s := s[n + |a|..];
      n := Index(s, b);
      if n < 0 {
        assert c.NoEnd?;
        failed := true;
        return;
      }
      tags := tags + [s[..n]];
      s := s[n + |b|..];
      assert c.Cut? && c.tail == s;
    }
  }

  // ---------------------------------------------------------------- the printer

  /** What is written before the last text; a tag nobody knows takes its text with it. */
  function Written(texts: seq<string>, tags: seq<string>, value: string -> Option<string>): string
    requires |texts| >= |tags|
  {
    if tags == [] then ""
    else match value(tags[0])
      case None => Written(texts[1..], tags[1..], value)
      case Some(v) => texts[0] + v + Written(texts[1..], tags[1..], value)
  }

  function Piece(text: string, value: Option<string>): string {
    match value
    case None => ""
    case Some(v) => text + v
  }

  /** Parts one behind the other are written one behind the other. */
  lemma {:induction false} WrittenJoins(texts: seq<string>, tags: seq<string>, more: seq<string>, moreTags: seq<string>,
                                        value: string -> Option<string>)
    requires |texts| == |tags| && |more| >= |moreTags|
    ensures Written(texts + more, tags + moreTags, value)
         == Written(texts, tags, value) + Written(more, moreTags, value)
  {
    if tags == [] {
      assert texts + more == more && tags + moreTags == moreTags;
    } else {
      assert (texts + more)[1..] == texts[1..] + more && (tags + moreTags)[1..] == tags[1..] + moreTags;
      WrittenJoins(texts[1..], tags[1..], more, moreTags, value);
    }
  }

  /** A tag nobody knows might as well not be there, and neither might the text in front of it. */
  lemma UnknownTagTakesText(texts: seq<string>, tags: seq<string>, value: string -> Option<string>, i: nat)
    requires i < |tags| <= |texts| && value(tags[i]).None?
    ensures Written(texts, tags, value)
         == Written(texts[..i] + texts[i + 1..], tags[..i] + tags[i + 1..], value)
  {
    WrittenJoins(texts[..i], tags[..i], texts[i..], tags[i..], value);
    WrittenJoins(texts[..i], tags[..i], texts[i + 1..], tags[i + 1..], value);
    assert texts[..i] + texts[i..] == texts && tags[..i] + tags[i..] == tags;
    assert texts[i..][1..] == texts[i + 1..] && tags[i..][1..] == tags[i + 1..];
  }

  /** Any other tag gives its text and then its value. */
  lemma KnownTagIsWritten(texts: seq<string>, tags: seq<string>, value: string -> Option<string>, i: nat)
    requires i < |tags| <= |texts| && value(tags[i]).Some?
    ensures Written(texts, tags, value)
         == Written(texts[..i], tags[..i], value)
            + (texts[i] + value(tags[i]).value + Written(texts[i + 1..], tags[i + 1..], value))
  {
    SplitAt(texts, i);
    SplitAt(tags, i);
    WrittenJoins(texts[..i], tags[..i], texts[i..], tags[i..], value);
  }

  lemma SplitAt<T>(list: seq<T>, i: nat)
    requires i < |list|
    ensures list[..i] + list[i..] == list && list[i..][0] == list[i] && list[i..][1..] == list[i + 1..]
  {
  }

  lemma WrittenFrom(buf: string, texts: seq<string>, tags: seq<string>, value: string -> Option<string>, i: nat)
    requires i < |tags| <= |texts|
    ensures buf + Written(texts[i..], tags[i..], value)
         == buf + Piece(texts[i], value(tags[i])) + Written(texts[i + 1..], tags[i + 1..], value)
  {
    assert texts[i..][1..] == texts[i + 1..] && tags[i..][1..] == tags[i + 1..];
  }

  /** Printing what the parser handed out; an index error if that was nothing. */
  method Render(texts: seq<string>, tags: seq<string>, value: string -> Option<string>)
    returns (r: Result<string, string>)
    requires |texts| >= |tags|
    ensures texts == [] <==> r.Err?
    ensures texts != [] ==> r == Ok(Written(texts, tags, value) + texts[|texts| - 1])
  {
    var buf := "";
    var i := 0;
    while i < |tags|
      invariant 0 <= i <= |tags|
      invariant buf + Written(texts[i..], tags[i..], value) == Written(texts, tags, value)
    {
      WrittenFrom(buf, texts, tags, value, i);
      var v := value(tags[i]);
      if v.Some? {
        buf := buf + (texts[i] + v.value);
      }
      i := i + 1;
    }
    if texts == [] {
      return Err("index out of range");
    }
    assert buf == Written(texts, tags, value);
    return Ok(buf + texts[|texts| - 1]);
  }

  /** Printing tags as themselves. */
  function Quoted(a: string, b: string): string -> Option<string> {
    (tag: string) => Some(a + tag + b)
  }

  lemma {:induction false} WrittenIsWoven(texts: seq<string>, tags: seq<string>, a: string, b: string)
    requires |texts| == |tags| + 1
    ensures Written(texts, tags, Quoted(a, b)) + texts[|texts| - 1] == Weave(texts, tags, a, b)
  {
    if tags != [] {
      WrittenIsWoven(texts[1..], tags[1..], a, b);
      var rest := Written(texts[1..], tags[1..], Quoted(a, b));
      assert texts[0] + (a + tags[0] + b) + rest + texts[|texts| - 1]
          == texts[0] + a + (tags[0] + b + (rest + texts[|texts| - 1]));
    }
  }

  /** A template with a start tag, parsed and printed with its tags quoted, is itself. */
  lemma PrintUndoesParse(s: string, a: string, b: string)
    requires a != "" && b != "" && Parse(s, a, b).ok
    ensures var p := Parse(s, a, b);
      && |p.texts| == |p.tags| + 1
      && Written(p.texts, p.tags, Quoted(a, b)) + p.texts[|p.texts| - 1] == s
  {
    WeaveUndoesParse(s, a, b);
    WrittenIsWoven(Parse(s, a, b).texts, Parse(s, a, b).tags, a, b);
  }

  /** Setting up the logger: a template that does not parse is refused there, and one that does
      makes the logger fail on each request exactly if it has no start tag. */
  method Log(template: string, a: string, b: string, value: string -> Option<string>)
    returns (r: Option<Result<string, string>>)
    requires a != "" && b != ""
    ensures r == None <==> !Parse(template, a, b).ok
    ensures r.Some? ==> (r.value.Err? <==> FreeOf(template, a))
    ensures r.Some? && r.value.Ok? ==>
              var p := Parse(template, a, b);
              |p.texts| == |p.tags| + 1 && r.value.value == Written(p.texts, p.tags, value) + p.texts[|p.tags|]
  {
    var texts, tags, failed := ParseTemplate(template, a, b);
    WeaveUndoesParse(template, a, b);
    IndexIsFirst(template, a);
    if failed {
      return None;
    }
    var out := Render(texts, tags, value);
    return Some(out);
  }
}
