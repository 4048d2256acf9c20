/** A workflow selector is resolved twice: by the command line over a list, with a prefix test, and by the
    store over its table, with SQLite's LIKE.  What both compute, and for which selectors they agree. */
module Selectors {
  import opened Base

  datatype Wf = Wf(id: string, name: string, version: string)

  datatype Choice = Found(id: string) | NotFound | Ambiguous

  const LATEST := "latest"

  /** Primary key on the id, unique index on name and version. */
  ghost predicate Keyed(ws: set<Wf>) {
    forall a, b :: a in ws && b in ws && (a.id == b.id || (a.name == b.name && a.version == b.version)) ==> a == b
  }

  function Named(ws: set<Wf>, selector: string): set<Wf> {
    set w | w in ws && w.name == selector
  }

  /** Exact id, then name with `latest` preferred, then the candidates by id: what the result means,
      whatever order the workflows are looked at in. */
  ghost predicate Resolves(ws: set<Wf>, selector: string, candidates: set<Wf>, r: Choice) {
    if exists w :: w in ws && w.id == selector then r == Found(selector)
    else if Named(ws, selector) != {} then
      match r
      case Found(id) =>
        exists w :: w in Named(ws, selector) && w.id == id && (Named(ws, selector) == {w} || w.version == "latest")
      case NotFound => false
      case Ambiguous => |Named(ws, selector)| > 1 && forall w :: w in Named(ws, selector) ==> w.version != "latest"
    else
      match r
      case Found(id) => exists w :: candidates == {w} && w.id == id
      case NotFound => candidates == {}
      case Ambiguous => |candidates| > 1
  }

  lemma SingletonSize<T>(s: set<T>, x: T)
    requires x in s && |s| <= 1
    ensures s == {x}
  {
    SubsetSize({x}, s);
    if s != {x} {
      var y :| y in s && y != x;
      SubsetSize({x, y}, s);
    }
  }

  /** The meaning leaves no choice. */
  lemma ResolutionUnique(ws: set<Wf>, selector: string, candidates: set<Wf>, a: Choice, b: Choice)
    requires Keyed(ws) && Resolves(ws, selector, candidates, a) && Resolves(ws, selector, candidates, b)
    ensures a == b
  {
    hide Keyed;
    if exists w :: w in ws && w.id == selector {
    } else if Named(ws, selector) != {} {
      NameResolutionUnique(ws, selector, candidates, a, b);
    } else {
      if a.Found? {
        var w :| candidates == {w} && w.id == a.id;
        assert |candidates| == 1;
      }
      if b.Found? {
        var w :| candidates == {w} && w.id == b.id;
        assert |candidates| == 1;
      }
    }
  }

  lemma NameResolutionUnique(ws: set<Wf>, selector: string, candidates: set<Wf>, a: Choice, b: Choice)
    requires Keyed(ws) && Resolves(ws, selector, candidates, a) && Resolves(ws, selector, candidates, b)
    requires Named(ws, selector) != {} && !exists w :: w in ws && w.id == selector
    ensures a == b
  {
    var names := Named(ws, selector);
    if a.Found? && b.Found? {
      var v :| v in names && v.id == a.id && (names == {v} || v.version == LATEST);
      var w :| w in names && w.id == b.id && (names == {w} || w.version == LATEST);
      assert v == w;
    }
  }

  /** Resolving a resolved id again gives the same workflow. */
  lemma ResolvedIdIsStable(ws: set<Wf>, selector: string, candidates: set<Wf>, again: set<Wf>, r: Choice, s: Choice)
    requires candidates <= ws && Resolves(ws, selector, candidates, r) && r.Found? && Resolves(ws, r.id, again, s)
    ensures s == r
  {
    if exists w :: w in ws && w.id == selector {
    } else if Named(ws, selector) != {} {
      var w :| w in Named(ws, selector) && w.id == r.id;
      assert w in ws;
    } else {
      var w :| candidates == {w} && w.id == r.id;
      assert w in ws;
    }
  }

  // ---------------------------------------------------------------- the command line

  function WithPrefix(ws: set<Wf>, selector: string): set<Wf> {
    set w | w in ws && selector <= w.id
  }

  /** One search loop of selectWorkflowID: the workflows of the list that satisfy the test, in list order. */
  method Matches(workflows: seq<Wf>, test: Wf -> bool) returns (found: seq<Wf>)
    requires NoDup(workflows)
    ensures NoDup(found) && Elements(found) == set w | w in Elements(workflows) && test(w)
  {
    found := [];
    for i := 0 to |workflows|
      invariant NoDup(found) && Elements(found) == set w | w in Elements(workflows[..i]) && test(w)
    {
      NoDupTake(workflows, i);
      if test(workflows[i]) {
        NoDupAppend(found, workflows[i]);
        found := found + [workflows[i]];
      }
    }
    assert workflows[..|workflows|] == workflows;
  }

  /** A list of one, of more, of none. */
  lemma ListedSize(found: seq<Wf>, s: set<Wf>)
    requires NoDup(found) && Elements(found) == s
    ensures |found| == |s| && (|found| == 1 ==> s == {found[0]}) && (|found| == 0 <==> s == {})
  {
    NoDupSize(found);
    if |found| == 1 {
      assert found[0] in Elements(found);
      SingletonSize(s, found[0]);
    }
    assert |found| > 0 ==> found[0] in Elements(found);
  }

  method SelectWorkflowID(workflows: seq<Wf>, selector: string) returns (r: Choice)
    requires NoDup(workflows) && Keyed(Elements(workflows))
    ensures Resolves(Elements(workflows), selector, WithPrefix(Elements(workflows), selector), r)
  {
    ghost var ws := Elements(workflows);
    for i := 0 to |workflows|
      invariant forall j :: 0 <= j < i ==> workflows[j].id != selector
    {
      if workflows[i].id == selector {
        assert workflows[i] in ws;
        return Found(selector);
      }
    }
    assert forall w :: w in ws ==> w.id != selector;
    var named := Matches(workflows, (w: Wf) => w.name == selector);
    assert Elements(named) == Named(ws, selector);
    ListedSize(named, Named(ws, selector));
    if |named| == 1 {
      return Found(named[0].id);
    }
    if |named| > 1 {
      for i := 0 to |named|
        invariant forall j :: 0 <= j < i ==> named[j].version != LATEST
      {
        if named[i].version == LATEST {
          assert named[i] in Elements(named);
          return Found(named[i].id);
        }
      }
      return Ambiguous;
    }
    var prefixed := Matches(workflows, (w: Wf) => selector <= w.id);
    assert Elements(prefixed) == WithPrefix(ws, selector);
    ListedSize(prefixed, WithPrefix(ws, selector));
    r := if |prefixed| == 0 then NotFound else if |prefixed| == 1 then Found(prefixed[0].id) else Ambiguous;
  }

  // ---------------------------------------------------------------- the store

  /** SQLite's LIKE: `%` any text, `_` any character, ASCII letters without regard to case. */
  predicate Like(text: string, pattern: string)
    decreases |pattern|, |text|
  {
    if pattern == "" then text == ""
    else if pattern[0] == '%' then Like(text, pattern[1..]) || (text != "" && Like(text[1..], pattern))
    else text != "" && (pattern[0] == '_' || Lower(text[0]) == Lower(pattern[0])) && Like(text[1..], pattern[1..])
  }

  function Lower(c: char): char {
    if 'A' <= c <= 'Z' then (c as int + 32) as char else c
  }

  /** The characters are the same, or the two cases of one ASCII letter. */
  predicate SameLetter(a: char, b: char) {
    a == b || ('A' <= a <= 'Z' && b as int == a as int + 32) || ('A' <= b <= 'Z' && a as int == b as int + 32)
  }

  /** A piece of text stands for one character of the pattern. */
  predicate StandsFor(piece: string, p: char) {
    p == '%' || (|piece| == 1 && (p == '_' || SameLetter(piece[0], p)))
  }

  function Joined(pieces: seq<string>): string {
    if pieces == [] then "" else pieces[0] + Joined(pieces[1..])
  }

  /** The text can be cut into one piece for every character of the pattern. */
  ghost predicate Cuts(text: string, pattern: string, pieces: seq<string>) {
    && |pieces| == |pattern| && Joined(pieces) == text
    && forall i :: 0 <= i < |pattern| ==> StandsFor(pieces[i], pattern[i])
  }

  lemma CutsFirst(text: string, pattern: string, piece: string, pieces: seq<string>)
    requires pattern != "" && StandsFor(piece, pattern[0]) && Cuts(text, pattern[1..], pieces)
    ensures Cuts(piece + text, pattern, [piece] + pieces)
  {
    assert ([piece] + pieces)[1..] == pieces;
    hide StandsFor;
    forall i | 0 <= i < |pattern| ensures StandsFor(([piece] + pieces)[i], pattern[i]) {
      assert i > 0 ==> pattern[i] == pattern[1..][i - 1];
    }
  }

  lemma CutsRest(text: string, pattern: string, pieces: seq<string>)
    requires pattern != "" && Cuts(text, pattern, pieces)
    ensures StandsFor(pieces[0], pattern[0]) && text == pieces[0] + Joined(pieces[1..])
    ensures Cuts(Joined(pieces[1..]), pattern[1..], pieces[1..])
  {
    hide StandsFor;
    forall i | 0 <= i < |pattern[1..]| ensures StandsFor(pieces[1..][i], pattern[1..][i]) {
      assert StandsFor(pieces[i + 1], pattern[i + 1]);
    }
  }

  lemma CutsMore(text: string, pattern: string, rest: seq<string>) returns (pieces: seq<string>)
    requires pattern != "" && pattern[0] == '%' && text != "" && Cuts(text[1..], pattern, rest)
    ensures Cuts(text, pattern, pieces)
  {
    CutsRest(text[1..], pattern, rest);
    assert rest != [];
    hide Cuts, Joined;
    var tail := Joined(rest[1..]);
    CutsFirst(tail, pattern, [text[0]] + rest[0], rest[1..]);
    assert [text[0]] + rest[0] + tail == [text[0]] + (rest[0] + tail) == text;
    pieces := [[text[0]] + rest[0]] + rest[1..];
  }

  lemma SameLetterIff(a: char, b: char)
    ensures SameLetter(a, b) <==> Lower(a) == Lower(b)
  {
  }

  lemma {:induction false} LikeCuts(text: string, pattern: string) returns (pieces: seq<string>)
    requires Like(text, pattern)
    ensures Cuts(text, pattern, pieces)
    decreases |pattern|, |text|
  {
    hide Cuts, SameLetter;
    pieces := [];
    if pattern == "" {
      NothingCut();
    } else if pattern[0] == '%' {
      if Like(text, pattern[1..]) {
        pieces := LikeCuts(text, pattern[1..]);
        CutsFirst(text, pattern, "", pieces);
        assert "" + text == text;
        pieces := [""] + pieces;
      } else {
        var rest := LikeCuts(text[1..], pattern);
        pieces := CutsMore(text, pattern, rest);
      }
    } else {
      SameLetterIff(text[0], pattern[0]);
      pieces := LikeCuts(text[1..], pattern[1..]);
      CutsFirst(text[1..], pattern, [text[0]], pieces);
      assert [text[0]] + text[1..] == text;
      pieces := [[text[0]]] + pieces;
    }
  }

  lemma NothingCut()
    ensures Cuts("", "", [])
  {
  }

  lemma {:induction false} LikeSkips(piece: string, text: string, pattern: string)
    requires pattern != "" && pattern[0] == '%' && Like(text, pattern[1..])
    ensures Like(piece + text, pattern)
    decreases |piece|
  {
    if piece == "" {
      assert piece + text == text;
    } else {
      LikeSkips(piece[1..], text, pattern);
      assert (piece + text)[1..] == piece[1..] + text;
    }
  }

  lemma {:induction false} CutsLike(text: string, pattern: string, pieces: seq<string>)
    requires Cuts(text, pattern, pieces)
    ensures Like(text, pattern)
    decreases |pattern|
  {
    if pattern != "" {
      CutsRest(text, pattern, pieces);
      hide Cuts, SameLetter;
      CutsLike(Joined(pieces[1..]), pattern[1..], pieces[1..]);
      if pattern[0] == '%' {
        LikeSkips(pieces[0], Joined(pieces[1..]), pattern);
      } else {
        SameLetterIff(pieces[0][0], pattern[0]);
        assert text[1..] == Joined(pieces[1..]);
      }
    }
  }

  /** LIKE matches exactly the texts that can be cut into pieces, any text for `%`, one character for `_`, and for
      any other character itself up to the case of ASCII letters. */
  lemma {:induction false} LikeMeans(text: string, pattern: string)
    ensures Like(text, pattern) <==> exists pieces :: Cuts(text, pattern, pieces)
  {
    if Like(text, pattern) {
      var pieces := LikeCuts(text, pattern);
    }
    if pieces :| Cuts(text, pattern, pieces) {
      CutsLike(text, pattern, pieces);
    }
    hide Like, Cuts;
  }

  function LikePrefix(ws: set<Wf>, selector: string): set<Wf> {
    set w | w in ws && Like(w.id, selector + "%")
  }

  /** What ORDER BY CASE WHEN version = 'latest' THEN 0 ELSE 1 END promises. */
  ghost predicate LatestFirst(rows: seq<Wf>) {
    forall i, j :: 0 <= i < j < |rows| && rows[j].version == "latest" ==> rows[i].version == "latest"
  }

  /** ResolveWorkflowSelector: `byId`, `byName` and `byPrefix` are the rows the three queries return. */
  method ResolveWorkflowSelector(ghost ws: set<Wf>, selector: string, byId: seq<Wf>, byName: seq<Wf>,
      byPrefix: seq<Wf>) returns (r: Choice)
    requires Keyed(ws)
    requires NoDup(byId) && Elements(byId) == set w | w in ws && w.id == selector
    requires NoDup(byName) && Elements(byName) == Named(ws, selector) && LatestFirst(byName)
    requires NoDup(byPrefix) && Elements(byPrefix) == LikePrefix(ws, selector)
    ensures Resolves(ws, selector, LikePrefix(ws, selector), r)
  {
    if |byId| > 0 {
      assert byId[0] in Elements(byId);
      return Found(byId[0].id);
    }
    assert forall w :: w in ws && w.id == selector ==> w in Elements(byId);
    ListedSize(byName, Named(ws, selector));
    if |byName| > 0 {
      assert byName[0] in Elements(byName);
      if |byName| == 1 || byName[0].version == LATEST {
        return Found(byName[0].id);
      }
      assert forall i :: 0 < i < |byName| ==> byName[i].version != LATEST;
      return Ambiguous;
    }
    ListedSize(byPrefix, LikePrefix(ws, selector));
    r := if |byPrefix| == 0 then NotFound else if |byPrefix| == 1 then Found(byPrefix[0].id) else Ambiguous;
  }

  // ---------------------------------------------------------------- LIKE against the prefix test

  /** A digit or a letter from a to f. */
  predicate Hex(c: char) {
    '0' <= c <= '9' || 'a' <= c <= 'f'
  }

  /** What workflowIDFor makes: eight lower-case hexadecimal digits. */
  predicate IsId(id: string) {
    |id| == 8 && forall i :: 0 <= i < |id| ==> Hex(id[i])
  }

  /** A character that LIKE reads differently from a prefix test on such ids. */
  predicate Special(c: char) {
    c == '%' || c == '_' || 'A' <= c <= 'F'
  }

  /** A character that LIKE can match against such an id. */
  predicate Matchable(c: char) {
    Hex(c) || Special(c)
  }

  /** How many characters of the id the selector uses up. */
  function Width(selector: string): nat {
    if selector == "" then 0 else (if selector[0] == '%' then 0 else 1) + Width(selector[1..])
  }

  /** The selectors on which the two resolvers can differ. */
  ghost predicate Treacherous(selector: string) {
    && (exists i :: 0 <= i < |selector| && Special(selector[i]))
    && (forall i :: 0 <= i < |selector| ==> Matchable(selector[i]))
    && Width(selector) <= 8
  }

  lemma {:induction false} LikeAll(text: string)
    ensures Like(text, "%")
    decreases |text|
  {
    assert "%"[1..] == "";
    if text != "" {
      LikeAll(text[1..]);
    }
  }

  lemma CharMatches(c: char, p: char)
    requires Hex(c) && !Special(p)
    ensures Lower(c) == Lower(p) <==> c == p
  {
  }

  /** Without special characters LIKE is the prefix test. */
  lemma {:induction false} LikeIsPrefix(text: string, selector: string)
    requires forall i :: 0 <= i < |text| ==> Hex(text[i])
    requires forall i :: 0 <= i < |selector| ==> !Special(selector[i])
    ensures Like(text, selector + "%") <==> selector <= text
    decreases |selector|
  {
    if selector == "" {
      assert selector + "%" == "%";
      LikeAll(text);
    } else {
      var p := selector + "%";
      assert p[1..] == selector[1..] + "%" && p[0] == selector[0];
      if text != "" {
        CharMatches(text[0], selector[0]);
        LikeIsPrefix(text[1..], selector[1..]);
        assert selector <= text <==> selector[0] == text[0] && selector[1..] <= text[1..];
      }
    }
  }

  /** LIKE matches an id-like text only if every character can be matched and the text is wide enough. */
  lemma {:induction false} LikeNeeds(text: string, selector: string)
    requires (forall i :: 0 <= i < |text| ==> Hex(text[i])) && Like(text, selector + "%")
    ensures (forall i :: 0 <= i < |selector| ==> Matchable(selector[i])) && Width(selector) <= |text|
    decreases |selector|, |text|
  {
    if selector != "" {
      var p := selector + "%";
      assert p[1..] == selector[1..] + "%" && p[0] == selector[0];
      if selector[0] == '%' && !Like(text, p[1..]) {
        LikeNeeds(text[1..], selector);
      } else {
        LikeNeeds(if selector[0] == '%' then text else text[1..], selector[1..]);
        forall i | 0 <= i < |selector| ensures Matchable(selector[i]) {
          if i > 0 {
            assert selector[i] == selector[1..][i - 1];
          }
        }
      }
    }
  }

  /** An id-like text that the selector matches: `_` becomes 0, letters lower case, `%` nothing. */
  function Sample(selector: string): string {
    if selector == "" then ""
    else SampleOf(selector[0]) + Sample(selector[1..])
  }

  /** The text for the first character, before the text for the rest. */
  function SampleOf(c: char): string {
    if c == '%' then "" else if c == '_' then "0" else [Lower(c)]
  }

  lemma SampleOfIsHex(c: char)
    requires Matchable(c)
    ensures |SampleOf(c)| == (if c == '%' then 0 else 1)
      && (c != '%' ==> Hex(SampleOf(c)[0]) && (c == '_' || Lower(SampleOf(c)[0]) == Lower(c)))
  {
  }

  lemma {:induction false} SampleShape(selector: string)
    requires forall i :: 0 <= i < |selector| ==> Matchable(selector[i])
    ensures |Sample(selector)| == Width(selector) && forall i ::
      0 <= i < |Sample(selector)| ==> Hex(Sample(selector)[i])
    decreases |selector|
  {
    if selector != "" {
      assert forall i :: 0 <= i < |selector[1..]| ==> selector[1..][i] == selector[i + 1];
      SampleShape(selector[1..]);
      SampleOfIsHex(selector[0]);
      hide Matchable, Hex, SampleOf;
    }
  }

  lemma {:induction false} LikeStep(text: string, selector: string)
    requires selector != ""
    ensures selector[0] == '%' && Like(text, selector[1..] + "%") ==> Like(text, selector + "%")
    ensures selector[0] != '%' && text != "" && (selector[0] == '_' || Lower(text[0]) == Lower(selector[0])) ==>
              (Like(text[1..], selector[1..] + "%") ==> Like(text, selector + "%"))
  {
    var p := selector + "%";
    assert p[1..] == selector[1..] + "%" && p[0] == selector[0];
    hide Lower;
  }

  lemma ConcatHead(front: string, tail: string, pad: string)
    ensures var text := front + tail + pad;
      && (|front| == 0 ==> text == tail + pad)
      && (|front| == 1 ==> text != "" && text[0] == front[0] && text[1..] == tail + pad)
  {
    assert front + tail + pad == front + (tail + pad);
  }

  lemma {:induction false} SampleSplits(selector: string, pad: string)
    requires selector != ""
    ensures var text, rest, front := Sample(selector) + pad, Sample(selector[1..]) + pad, SampleOf(selector[0]);
      (|front| == 0 ==> text == rest) && (|front| == 1 ==> text != "" && text[0] == front[0] && text[1..] == rest)
  {
    hide SampleOf;
    assert Sample(selector) == SampleOf(selector[0]) + Sample(selector[1..]);
    hide Sample;
    ConcatHead(SampleOf(selector[0]), Sample(selector[1..]), pad);
  }

  lemma {:induction false} SampleMatches(selector: string, pad: string)
    requires forall i :: 0 <= i < |selector| ==> Matchable(selector[i])
    ensures Like(Sample(selector) + pad, selector + "%")
    decreases |selector|
  {
    if selector == "" {
      assert selector + "%" == "%";
      LikeAll(Sample(selector) + pad);
    } else {
      hide Matchable, Hex, SampleOf, Lower, Like, Sample;
      var text := Sample(selector) + pad;
      SampleSplits(selector, pad);
      forall i | 0 <= i < |selector[1..]| ensures Matchable(selector[1..][i]) { assert Matchable(selector[i + 1]); }
      SampleMatches(selector[1..], pad);
      SampleOfIsHex(selector[0]);
      LikeStep(text, selector);
    }
  }

  lemma {:induction false} Zeros(n: nat) returns (s: string)
    ensures |s| == n && forall i :: 0 <= i < n ==> Hex(s[i])
  {
    s := seq(n, i => '0');
  }

  /** Over ids as the daemon makes them both resolvers agree for every table, or differ for some table. */
  ghost predicate AlwaysAgree(selector: string) {
    forall ws: set<Wf>, a: Choice, b: Choice ::
      (Keyed(ws) && (forall w :: w in ws ==> IsId(w.id))
       && Resolves(ws, selector, WithPrefix(ws, selector), a) && Resolves(ws, selector, LikePrefix(ws, selector), b))
      ==> a == b
  }

  lemma PrefixIsHex(id: string, selector: string)
    requires IsId(id)
    ensures selector <= id ==> forall i :: 0 <= i < |selector| ==> Hex(selector[i]) && !Special(selector[i])
  {
    assert selector <= id ==> forall i :: 0 <= i < |selector| ==> selector[i] == id[i];
  }

  lemma SameCandidates(ws: set<Wf>, selector: string)
    requires !Treacherous(selector) && forall w :: w in ws ==> IsId(w.id)
    ensures WithPrefix(ws, selector) == LikePrefix(ws, selector)
  {
    forall w | w in ws ensures selector <= w.id <==> Like(w.id, selector + "%") {
      if forall i :: 0 <= i < |selector| ==> !Special(selector[i]) {
        LikeIsPrefix(w.id, selector);
      } else {
        if Like(w.id, selector + "%") {
          LikeNeeds(w.id, selector);
        }
        PrefixIsHex(w.id, selector);
      }
    }
  }

  /** A table on which the two differ: one workflow, whose id only LIKE takes for a match. */
  lemma TreacherousDiffers(selector: string) returns (w: Wf)
    requires Treacherous(selector)
    ensures IsId(w.id) && Keyed({w}) && w.name != selector
    ensures Resolves({w}, selector, WithPrefix({w}, selector), NotFound)
      && Resolves({w}, selector, LikePrefix({w}, selector), Found(w.id))
  {
    var pad := Zeros(8 - Width(selector));
    SampleShape(selector);
    SampleMatches(selector, pad);
    var id := Sample(selector) + pad;
    w := Wf(id, selector + "0", LATEST);
    var i :| 0 <= i < |selector| && Special(selector[i]);
    hide Sample, Width, Like;
    PrefixIsHex(id, selector);
    assert LikePrefix({w}, selector) == {w} && WithPrefix({w}, selector) == {} && Named({w}, selector) == {};
  }

  /** The two resolvers agree on every table exactly for the selectors that are not treacherous; in
      particular for every selector without `%`, `_` and the letters A to F. */
  lemma ResolversAgreeIff(selector: string)
    ensures AlwaysAgree(selector) <==> !Treacherous(selector)
  {
    if Treacherous(selector) {
      var w := TreacherousDiffers(selector);
      assert !AlwaysAgree(selector);
    } else {
      forall ws: set<Wf>, a, b |
        Keyed(ws) && (forall w :: w in ws ==> IsId(w.id))
        && Resolves(ws, selector, WithPrefix(ws, selector), a) && Resolves(ws, selector, LikePrefix(ws, selector), b)
        ensures a == b
      {
        SameCandidates(ws, selector);
        ResolutionUnique(ws, selector, WithPrefix(ws, selector), a, b);
      }
    }
  }
}
