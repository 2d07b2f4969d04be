/** Serialisation of the project list into one storage string.

    The application stores the list with a JSON stringifier and reads it
    back with a JSON parser that throws on malformed input. This module
    stands in for that pair: a concrete, self-delimiting text encoding
    whose decoder reports `None` for anything it cannot read. What the rest
    of the model relies on is proved here: decoding an encoding gives back
    the list, so the encoding is injective, and an encoding is never the
    empty string. */
module Codec {
  import opened Types

  /** Ends one encoded text. */
  const TERM: char := ';'
  /** Makes the next character literal. */
  const ESC: char := '\\'
  /** Starts one element of an encoded list. */
  const ITEM: char := '+'
  /** Ends an encoded list. */
  const END: char := '.'

  // ----- texts -----

  function Escape(s: string): string {
    if s == [] then []
    else (if s[0] == ESC || s[0] == TERM then [ESC, s[0]] else [s[0]]) + Escape(s[1..])
  }

  function EncodeText(s: string): string {
    Escape(s) + [TERM]
  }

  /** Reads one encoded text off the front of `t`; gives the text and what follows it. */
  function DecodeText(t: string): (r: Option<(string, string)>)
    ensures r.Some? ==> |r.value.1| < |t|
    decreases |t|
  {
    if t == [] then None
    else if t[0] == TERM then Some(([], t[1..]))
    else if t[0] == ESC then
      if |t| < 2 then None
      else
        match DecodeText(t[2..])
        case None => None
        case Some(d) => Some(([t[1]] + d.0, d.1))
    else
      match DecodeText(t[1..])
      case None => None
      case Some(d) => Some(([t[0]] + d.0, d.1))
  }

  lemma {:induction false} TextRoundTrip(s: string, rest: string)
    ensures DecodeText(EncodeText(s) + rest) == Some((s, rest))
    decreases |s|
  {
    var t := EncodeText(s) + rest;
    if s == [] {
      assert t == [TERM] + rest;
    } else {
      TextRoundTrip(s[1..], rest);
      var tail := EncodeText(s[1..]) + rest;
      if s[0] == ESC || s[0] == TERM {
        assert Escape(s) == [ESC, s[0]] + Escape(s[1..]);
        assert t == [ESC, s[0]] + tail;
        assert t[0] == ESC && t[1] == s[0] && t[2..] == tail;
      } else {
        assert Escape(s) == [s[0]] + Escape(s[1..]);
        assert t == [s[0]] + tail;
        assert t[0] == s[0] && t[1..] == tail;
      }
      assert [s[0]] + s[1..] == s;
    }
  }

  // ----- lists of texts (the gallery) -----

  function EncodeTexts(xs: seq<string>): string {
    if xs == [] then [END]
    else [ITEM] + EncodeText(xs[0]) + EncodeTexts(xs[1..])
  }

  function DecodeTexts(t: string): (r: Option<(seq<string>, string)>)
    ensures r.Some? ==> |r.value.1| < |t|
    decreases |t|
  {
    if t == [] then None
    else if t[0] == END then Some(([], t[1..]))
    else if t[0] == ITEM then
      var first :- DecodeText(t[1..]);
      var others :- DecodeTexts(first.1);
      Some(([first.0] + others.0, others.1))
    else None
  }

  lemma {:induction false} TextsRoundTrip(xs: seq<string>, rest: string)
    ensures DecodeTexts(EncodeTexts(xs) + rest) == Some((xs, rest))
    decreases |xs|
  {
    if xs == [] {
      assert EncodeTexts(xs) + rest == [END] + rest;
    } else {
      var tail := EncodeTexts(xs[1..]) + rest;
      var t := EncodeTexts(xs) + rest;
      assert t == [ITEM] + (EncodeText(xs[0]) + tail);
      assert t[1..] == EncodeText(xs[0]) + tail;
      TextRoundTrip(xs[0], tail);
      TextsRoundTrip(xs[1..], rest);
      DecodeTextsStep(t, xs[0], tail, xs[1..], rest);
      assert [xs[0]] + xs[1..] == xs;
    }
  }

  /** One unfolding of `DecodeTexts` at an element marker. */
  lemma DecodeTextsStep(t: string, x: string, tail: string, others: seq<string>, rest: string)
    requires |t| > 0 && t[0] == ITEM
    requires DecodeText(t[1..]) == Some((x, tail))
    requires DecodeTexts(tail) == Some((others, rest))
    ensures DecodeTexts(t) == Some(([x] + others, rest))
  {
  }

  // ----- projects -----

  function EncodeProject(p: Project): string {
    EncodeText(p.id) + (EncodeText(p.title) + (EncodeText(p.category)
      + (EncodeText(p.coverImage) + (EncodeTexts(p.images)
      + (EncodeText(p.description) + EncodeText(p.year))))))
  }

  function DecodeProject(t: string): (r: Option<(Project, string)>)
    ensures r.Some? ==> |r.value.1| < |t|
  {
    var id :- DecodeText(t);
    var title :- DecodeText(id.1);
    var category :- DecodeText(title.1);
    var cover :- DecodeText(category.1);
    var images :- DecodeTexts(cover.1);
    var description :- DecodeText(images.1);
    var year :- DecodeText(description.1);
    Some((Project(id.0, title.0, category.0, cover.0, images.0, description.0, year.0), year.1))
  }

  lemma ProjectRoundTrip(p: Project, rest: string)
    ensures DecodeProject(EncodeProject(p) + rest) == Some((p, rest))
  {
    var t7 := EncodeText(p.year) + rest;
    var t6 := EncodeText(p.description) + t7;
    var t5 := EncodeTexts(p.images) + t6;
    var t4 := EncodeText(p.coverImage) + t5;
    var t3 := EncodeText(p.category) + t4;
    var t2 := EncodeText(p.title) + t3;
    var t1 := EncodeText(p.id) + t2;
    Associate(EncodeText(p.description), EncodeText(p.year), rest);
    Associate(EncodeTexts(p.images), EncodeText(p.description) + EncodeText(p.year), rest);
    assert EncodeProject(p) + rest == t1 by {
      var e6 := EncodeText(p.description) + EncodeText(p.year);
      var e5 := EncodeTexts(p.images) + e6;
      var e4 := EncodeText(p.coverImage) + e5;
      var e3 := EncodeText(p.category) + e4;
      var e2 := EncodeText(p.title) + e3;
      Associate(EncodeText(p.coverImage), e5, rest);
      Associate(EncodeText(p.category), e4, rest);
      Associate(EncodeText(p.title), e3, rest);
      Associate(EncodeText(p.id), e2, rest);
    }
    TextRoundTrip(p.id, t2);
    TextRoundTrip(p.title, t3);
    TextRoundTrip(p.category, t4);
    TextRoundTrip(p.coverImage, t5);
    TextsRoundTrip(p.images, t6);
    TextRoundTrip(p.description, t7);
    TextRoundTrip(p.year, rest);
  }

  lemma Associate(a: string, b: string, c: string)
    ensures (a + b) + c == a + (b + c)
  {
  }

  // ----- the project list -----

  function EncodeProjects(ps: seq<Project>): string {
    if ps == [] then [END]
    else [ITEM] + EncodeProject(ps[0]) + EncodeProjects(ps[1..])
  }

  function DecodeProjects(t: string): (r: Option<(seq<Project>, string)>)
    ensures r.Some? ==> |r.value.1| < |t|
    decreases |t|
  {
    if t == [] then None
    else if t[0] == END then Some(([], t[1..]))
    else if t[0] == ITEM then
      var first :- DecodeProject(t[1..]);
      var others :- DecodeProjects(first.1);
      Some(([first.0] + others.0, others.1))
    else None
  }

  lemma {:induction false} ProjectsRoundTrip(ps: seq<Project>, rest: string)
    ensures DecodeProjects(EncodeProjects(ps) + rest) == Some((ps, rest))
    decreases |ps|
  {
    if ps == [] {
      assert EncodeProjects(ps) + rest == [END] + rest;
    } else {
      var tail := EncodeProjects(ps[1..]) + rest;
      var t := EncodeProjects(ps) + rest;
      EncodeProjectsCons(ps, rest);
      ProjectRoundTrip(ps[0], tail);
      ProjectsRoundTrip(ps[1..], rest);
      DecodeProjectsStep(t, ps[0], tail, ps[1..], rest);
      assert [ps[0]] + ps[1..] == ps;
    }
  }

  /** A non-empty list's encoding is a marker, its first element's
      encoding, and the encoding of the others. */
  lemma EncodeProjectsCons(ps: seq<Project>, rest: string)
    requires ps != []
    ensures |EncodeProjects(ps) + rest| > 0 && (EncodeProjects(ps) + rest)[0] == ITEM
    ensures (EncodeProjects(ps) + rest)[1..] == EncodeProject(ps[0]) + (EncodeProjects(ps[1..]) + rest)
  {
    var e := EncodeProject(ps[0]);
    var tail := EncodeProjects(ps[1..]);
    assert EncodeProjects(ps) == [ITEM] + e + tail;
    Associate([ITEM] + e, tail, rest);
    Associate([ITEM], e, tail + rest);
    var y := e + (tail + rest);
    assert ([ITEM] + y)[1..] == y;
  }

  /** One unfolding of `DecodeProjects` at an element marker. */
  lemma DecodeProjectsStep(t: string, p: Project, tail: string, others: seq<Project>, rest: string)
    requires |t| > 0 && t[0] == ITEM
    requires DecodeProject(t[1..]) == Some((p, tail))
    requires DecodeProjects(tail) == Some((others, rest))
    ensures DecodeProjects(t) == Some(([p] + others, rest))
  {
  }

  /** The stringifier: the whole list as one storage value. */
  function Encode(ps: seq<Project>): (s: string)
    ensures s != []
  {
    EncodeProjects(ps)
  }

  /** The parser: `None` where the JSON parser would throw, that is, on
      any text that is not exactly one encoded list. */
  function Decode(s: string): (r: Option<seq<Project>>)
    ensures s == [] ==> r == None
  {
    match DecodeProjects(s)
    case None => None
    case Some(d) => if d.1 == [] then Some(d.0) else None
  }

  /** Reading back what was written gives the same list. */
  lemma RoundTrip(ps: seq<Project>)
    ensures Decode(Encode(ps)) == Some(ps)
  {
    ProjectsRoundTrip(ps, []);
    assert EncodeProjects(ps) + [] == EncodeProjects(ps);
  }

  /** Two lists with the same encoding are the same list. */
  lemma EncodeInjective(a: seq<Project>, b: seq<Project>)
    requires Encode(a) == Encode(b)
    ensures a == b
  {
    RoundTrip(a);
    RoundTrip(b);
  }
}
