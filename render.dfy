/**
  * Rendering of a control artifact (index.js lines 274-289 and 324-338).
  * Every template line goes through one `line.replace("##TOKEN##", value)`
  * call per entry of a fixed table, in table order; the rendered lines are
  * collected and joined with line breaks.
  *
  * `RenderLineAsWritten` is the per-line chain with JavaScript's `replace`,
  * which reads `$` sequences in the value as replacement patterns;
  * `RenderLine` inserts the values literally, and is what the rest of the
  * model uses. The two agree whenever no value holds a `$`.
  *
  * `Filled` states what rendering means for a template line: every
  * placeholder whose token the table binds is replaced by the bound value
  * and nothing else changes. `RenderLineFilled` proves that the replacement
  * chain computes exactly that, for any values that hold no placeholder
  * start (two `#` followed by an upper-case letter).
  */
module Render {
  import opened Strings
  import opened Templates
  import opened Wrappers

  /** One `line.replace("##TOKEN##", value)` call of the rendering loop. */
  datatype Binding = Binding(token: Token, value: string)

  /** The rendering chain as written, with JavaScript's `replace`. */
  function RenderLineAsWritten(line: string, table: seq<Binding>): string
    decreases |table|
  {
    if |table| == 0 then line
    else
      var last := table[|table| - 1];
      ReplaceFirst(RenderLineAsWritten(line, table[..|table| - 1]), Placeholder(last.token), last.value)
  }

  /** The rendering chain with each value inserted literally. */
  function RenderLine(line: string, table: seq<Binding>): string
    decreases |table|
  {
    if |table| == 0 then line
    else
      var last := table[|table| - 1];
      ReplaceVerbatim(RenderLine(line, table[..|table| - 1]), Placeholder(last.token), last.value)
  }

  /** The rendered lines of a template. */
  function RenderedLines(template: seq<Line>, table: seq<Binding>): (r: seq<string>)
    ensures |r| == |template|
  {
    seq(|template|, i requires 0 <= i < |template| => RenderLine(LineText(template[i]), table))
  }

  /** The rendered lines of a template, with the chain as written. */
  function RenderedLinesAsWritten(template: seq<Line>, table: seq<Binding>): (r: seq<string>)
    ensures |r| == |template|
  {
    seq(|template|, i requires 0 <= i < |template| => RenderLineAsWritten(LineText(template[i]), table))
  }

  /**
    * When no value holds a `$`, the text the program renders with
    * `replace` is the text of the literal chain.
    */
  lemma RenderedTextAsWrittenAgrees(template: seq<Line>, table: seq<Binding>)
    requires forall i | 0 <= i < |table| :: '$' !in table[i].value
    ensures Join(RenderedLinesAsWritten(template, table), "\n") == Join(RenderedLines(template, table), "\n")
  {
    var written, literal := RenderedLinesAsWritten(template, table), RenderedLines(template, table);
    forall i | 0 <= i < |template|
      ensures written[i] == literal[i]
    {
      RenderLineAsWrittenAgrees(LineText(template[i]), table);
    }
    assert written == literal;
  }

  /** The chain of `line.replace(...)` calls for one line, one binding after another. */
  method RenderLineChain(source: string, table: seq<Binding>) returns (line: string)
    ensures line == RenderLine(source, table)
  {
    line := source;
    for j := 0 to |table|
      invariant line == RenderLine(source, table[..j])
    {
      assert table[..j + 1][..j] == table[..j];
      line := ReplaceVerbatim(line, Placeholder(table[j].token), table[j].value);
    }
    assert table[..|table|] == table;
  }

  /**
    * The rendering loop: for each template line, the chain of replacements,
    * then the line is pushed; the result is the lines joined with `"\n"`.
    */
  method RenderTemplate(template: seq<Line>, table: seq<Binding>) returns (text: string)
    ensures text == Join(RenderedLines(template, table), "\n")
  {
    var lines: seq<string> := [];
    for i := 0 to |template|
      invariant |lines| == i
      invariant forall k | 0 <= k < i :: lines[k] == RenderLine(LineText(template[k]), table)
    {
      var line := RenderLineChain(LineText(template[i]), table);
      assert (lines + [line])[i] == line;
      lines := lines + [line];
    }
    var rendered := RenderedLines(template, table);
    forall k | 0 <= k < |lines|
      ensures lines[k] == rendered[k]
    {
    }
    assert lines == rendered;
    text := Join(lines, "\n");
  }

  // ----- What rendering means -----

  /** `s` holds no position where a placeholder could start. */
  predicate NoMarker(s: string) {
    forall i | 0 <= i < |s| :: !MarkerAt(s, i)
  }

  /** The value the table binds to `t`: that of its first entry for `t`. */
  function Lookup(table: seq<Binding>, t: Token): Option<string>
    decreases |table|
  {
    if |table| == 0 then None
    else if table[0].token == t then Some(table[0].value)
    else Lookup(table[1..], t)
  }

  /** No token has two entries in the table. */
  predicate Distinct(table: seq<Binding>) {
    forall i, j | 0 <= i < j < |table| :: table[i].token != table[j].token
  }

  /** No value holds a placeholder start. */
  predicate Clean(table: seq<Binding>) {
    forall i | 0 <= i < |table| :: NoMarker(table[i].value)
  }

  /** What stands in place of the placeholder of `t`: its value if bound, else the placeholder itself. */
  function Fill(t: Token, table: seq<Binding>): string {
    match Lookup(table, t)
    case Some(v) => v
    case None => Placeholder(t)
  }

  function FilledSlots(slots: seq<Slot>, table: seq<Binding>): string
    decreases |slots|
  {
    if |slots| == 0 then ""
    else Fill(slots[0].token, table) + slots[0].after + FilledSlots(slots[1..], table)
  }

  /** The template line with the placeholder of every bound token replaced by its value. */
  function Filled(l: Line, table: seq<Binding>): string {
    l.head + FilledSlots(l.slots, table)
  }

  // ----- The main theorems -----

  /**
    * For a table without repeated tokens and values without placeholder
    * starts, the replacement chain fills every placeholder of the line
    * whose token the table binds, and changes nothing else.
    */
  lemma {:induction false} RenderLineFilled(l: TemplateLine, table: seq<Binding>)
    requires Distinct(table) && Clean(table)
    ensures RenderLine(LineText(l), table) == Filled(l, table)
    decreases |table|
  {
    if |table| == 0 {
      SlotsTextFilled(l.slots);
    } else {
      var prefix, last := TableSplit(table);
      RenderLineFilled(l, prefix);
      ReplaceStep(l, prefix, last.token, last.value);
    }
  }

  /**
    * A line without placeholder starts (such as a template line without
    * placeholders) comes out of the chain unchanged, whatever the values.
    */
  lemma {:induction false} RenderLineInert(s: string, table: seq<Binding>)
    requires NoMarker(s)
    ensures RenderLine(s, table) == s
    decreases |table|
  {
    if |table| > 0 {
      var last := table[|table| - 1];
      RenderLineInert(s, table[..|table| - 1]);
      NoMarkerNoPlaceholder(s, last.token);
    }
  }

  /**
    * When the table binds every token of the line (and repeats none, and no
    * value holds a placeholder start), the rendered line holds no
    * placeholder start, so no placeholder at all.
    */
  lemma RenderLineComplete(l: TemplateLine, table: seq<Binding>)
    requires Distinct(table) && Clean(table)
    requires forall m | 0 <= m < |l.slots| :: Lookup(table, l.slots[m].token).Some?
    ensures NoMarker(RenderLine(LineText(l), table))
    ensures forall u :: !Contains(RenderLine(LineText(l), table), Placeholder(u))
  {
    RenderLineFilled(l, table);
    MarkersFill(l.head, l.slots, table, {});
    var r := RenderLine(LineText(l), table);
    forall u
      ensures !Contains(r, Placeholder(u))
    {
      NoMarkerNoPlaceholder(r, u);
    }
  }

  /**
    * The rendered text of a template all of whose tokens the table binds
    * holds no placeholder.
    */
  lemma RenderedTextComplete(template: seq<TemplateLine>, table: seq<Binding>, u: Token)
    requires Distinct(table) && Clean(table)
    requires forall i, m | 0 <= i < |template| && 0 <= m < |template[i].slots| ::
      Lookup(table, template[i].slots[m].token).Some?
    ensures !Contains(Join(RenderedLines(template, table), "\n"), Placeholder(u))
  {
    var lines := RenderedLines(template, table);
    var text := Join(lines, "\n");
    forall i | 0 <= i < |lines|
      ensures !Contains(lines[i], Placeholder(u))
    {
      RenderLineComplete(template[i], table);
    }
    if |lines| == 0 {
      assert text == "";
      assert !OccursAt(Placeholder(u), text, 0);
    } else if Contains(text, Placeholder(u)) {
      var p := Placeholder(u);
      var i :| 0 <= i <= |text| && OccursAt(p, text, i);
      PlaceholderLacksNewline(u);
      JoinOccurrence(lines, '\n', p, i);
      assert false;
    }
  }

  /**
    * When no value holds a line break, the rendered text splits back into
    * exactly one line per template line.
    */
  lemma RenderedTextLines(template: seq<TemplateLine>, table: seq<Binding>)
    requires |template| >= 1
    requires forall i | 0 <= i < |table| :: '\n' !in table[i].value
    ensures Split(Join(RenderedLines(template, table), "\n"), '\n') == RenderedLines(template, table)
    ensures |Split(Join(RenderedLines(template, table), "\n"), '\n')| == |template|
  {
    var lines := RenderedLines(template, table);
    forall i | 0 <= i < |lines|
      ensures '\n' !in lines[i]
    {
      InertLacksNewline(LineText(template[i]), template[i]);
      RenderLineAvoids(LineText(template[i]), table, '\n');
    }
    SplitJoin(lines, '\n');
  }

  /**
    * The replacement chain is sequential: a value that holds the
    * placeholder of a token replaced later gets that placeholder expanded.
    */
  lemma LaterTokenInValueExpands(t: Token, u: Token, v: string)
    ensures RenderLine(Placeholder(t), [Binding(t, Placeholder(u)), Binding(u, v)]) == v
  {
    var first := [Binding(t, Placeholder(u))];
    var table := first + [Binding(u, v)];
    assert first[..0] == [];
    ReplaceWhole(Placeholder(t), Placeholder(u));
    assert RenderLine(Placeholder(t), first) == Placeholder(u);
    assert table[..1] == first;
    ReplaceWhole(Placeholder(u), v);
    assert RenderLine(Placeholder(t), table) == ReplaceVerbatim(RenderLine(Placeholder(t), first), Placeholder(u), v);
  }

  // ----- Replacement with `$` patterns, as written -----

  /** Without a `$` in any value, the chain as written is the literal one. */
  lemma {:induction false} RenderLineAsWrittenAgrees(line: string, table: seq<Binding>)
    requires forall i | 0 <= i < |table| :: '$' !in table[i].value
    ensures RenderLineAsWritten(line, table) == RenderLine(line, table)
    decreases |table|
  {
    if |table| > 0 {
      var n := |table|;
      RenderLineAsWrittenAgrees(line, table[..n - 1]);
      ReplaceFirstVerbatim(RenderLine(line, table[..n - 1]), Placeholder(table[n - 1].token), table[n - 1].value);
    }
  }

  /**
    * A value `$&` makes the chain as written put the placeholder back, so
    * the rendered line still holds it; inserted literally, the value
    * replaces it.
    */
  lemma AsWrittenKeepsPlaceholder(l: TemplateLine, t: Token)
    requires Mentions(l, t)
    ensures Contains(RenderLineAsWritten(LineText(l), [Binding(t, "$&")]), Placeholder(t))
    ensures !Contains(RenderLine(LineText(l), [Binding(t, "$&")]), Placeholder(t))
  {
    var k :| 0 <= k < |l.slots| && l.slots[k].token == t;
    AsWrittenKept(l, t, k);
    LiteralReplaced(l, t, k);
  }

  lemma AsWrittenKept(l: TemplateLine, t: Token, k: int)
    requires 0 <= k < |l.slots| && l.slots[k].token == t
    ensures Contains(RenderLineAsWritten(LineText(l), [Binding(t, "$&")]), Placeholder(t))
  {
    var table := [Binding(t, "$&")];
    assert table[..0] == [];
    ReplaceFirstMatchPattern(LineText(l), Placeholder(t));
    assert RenderLineAsWritten(LineText(l), table) == LineText(l);
    SlotsTextFilled(l.slots);
    var x, y := FilledSplit(l, [], k);
    assert LineText(l) == x + Placeholder(t) + y;
    assert LineText(l)[|x|..|x| + |Placeholder(t)|] == Placeholder(t);
    assert OccursAt(Placeholder(t), RenderLineAsWritten(LineText(l), table), |x|);
  }

  lemma LiteralReplaced(l: TemplateLine, t: Token, k: int)
    requires 0 <= k < |l.slots| && l.slots[k].token == t
    ensures !Contains(RenderLine(LineText(l), [Binding(t, "$&")]), Placeholder(t))
  {
    var table := [Binding(t, "$&")];
    assert NoMarker(table[0].value);
    assert Distinct(table) && Clean(table);
    RenderLineFilled(l, table);
    var pending := AllTokens - {t};
    AllTokensComplete();
    forall m | 0 <= m < |l.slots|
      ensures Lookup(table, l.slots[m].token).Some? || l.slots[m].token in pending
    {
    }
    MarkersFill(l.head, l.slots, table, pending);
    PendingAbsent(Filled(l, table), pending, t);
  }

  // ----- Lemmas about the table -----

  /** A table is its entries but the last, which leave the last token unbound, and the last entry. */
  lemma TableSplit(table: seq<Binding>) returns (prefix: seq<Binding>, last: Binding)
    requires |table| > 0 && Distinct(table) && Clean(table)
    ensures prefix == table[..|table| - 1] && last == table[|table| - 1] && table == prefix + [last]
    ensures Distinct(prefix) && Clean(prefix) && NoMarker(last.value)
    ensures Lookup(prefix, last.token) == None
  {
    prefix, last := table[..|table| - 1], table[|table| - 1];
    assert table == prefix + [last];
    LookupAbsent(prefix, last.token);
  }

  lemma {:induction false} LookupAbsent(table: seq<Binding>, t: Token)
    requires forall i | 0 <= i < |table| :: table[i].token != t
    ensures Lookup(table, t) == None
    decreases |table|
  {
    if |table| > 0 {
      LookupAbsent(table[1..], t);
    }
  }

  lemma {:induction false} LookupClean(table: seq<Binding>, t: Token)
    requires Clean(table)
    ensures Lookup(table, t).Some? ==> NoMarker(Lookup(table, t).value)
    decreases |table|
  {
    if |table| > 0 && table[0].token != t {
      assert Clean(table[1..]);
      LookupClean(table[1..], t);
    }
  }

  /** Adding an entry for an unbound token binds it and leaves every other lookup alone. */
  lemma {:induction false} LookupSnoc(table: seq<Binding>, b: Binding, t: Token)
    requires Lookup(table, b.token) == None
    ensures Lookup(table + [b], t) ==
      if Lookup(table, t).Some? then Lookup(table, t) else if b.token == t then Some(b.value) else None
    decreases |table|
  {
    if |table| == 0 {
      assert table + [b] == [b];
    } else {
      assert (table + [b])[1..] == table[1..] + [b];
      if table[0].token != t {
        LookupSnoc(table[1..], b, t);
      }
    }
  }

  // ----- Lemmas about filled lines -----

  lemma {:induction false} SlotsTextFilled(slots: seq<Slot>)
    ensures SlotsText(slots) == FilledSlots(slots, [])
    decreases |slots|
  {
    if |slots| > 0 {
      SlotsTextFilled(slots[1..]);
    }
  }

  lemma {:induction false} FilledSlotsAppend(a: seq<Slot>, b: seq<Slot>, table: seq<Binding>)
    ensures FilledSlots(a + b, table) == FilledSlots(a, table) + FilledSlots(b, table)
    decreases |a|
  {
    if |a| > 0 {
      assert (a + b)[0] == a[0];
      assert (a + b)[1..] == a[1..] + b;
      FilledSlotsAppend(a[1..], b, table);
    } else {
      assert a + b == b;
    }
  }

  lemma {:induction false} FilledSlotsAgree(slots: seq<Slot>, d1: seq<Binding>, d2: seq<Binding>)
    requires forall m | 0 <= m < |slots| :: Fill(slots[m].token, d1) == Fill(slots[m].token, d2)
    ensures FilledSlots(slots, d1) == FilledSlots(slots, d2)
    decreases |slots|
  {
    if |slots| > 0 {
      FilledSlotsAgree(slots[1..], d1, d2);
    }
  }

  /** A filled line around its slot `k`: the text before, what stands in the slot, the text after. */
  lemma FilledSplit(l: Line, table: seq<Binding>, k: int) returns (x: string, y: string)
    requires 0 <= k < |l.slots|
    ensures x == l.head + FilledSlots(l.slots[..k], table)
    ensures y == l.slots[k].after + FilledSlots(l.slots[k + 1..], table)
    ensures Filled(l, table) == x + Fill(l.slots[k].token, table) + y
  {
    var s := l.slots;
    var before, from := s[..k], s[k..];
    assert s == before + from;
    FilledSlotsAppend(before, from, table);
    assert from[0] == s[k] && from[1..] == s[k + 1..];
    var f, rest := Fill(s[k].token, table), FilledSlots(s[k + 1..], table);
    assert FilledSlots(from, table) == f + s[k].after + rest;
    x := l.head + FilledSlots(before, table);
    y := s[k].after + rest;
    assert Filled(l, table) == l.head + (FilledSlots(before, table) + FilledSlots(from, table));
    SeqAssoc(l.head, FilledSlots(before, table), f + s[k].after + rest);
  }

  /** String concatenation regrouped. */
  lemma SeqAssoc(a: string, b: string, tail: string)
    ensures a + (b + tail) == (a + b) + tail
  {
  }

  /** The text in front of a slot that is not the first ends with the literal after the previous slot. */
  lemma FilledBeforeEnd(l: TemplateLine, table: seq<Binding>, k: int)
    requires 0 <= k < |l.slots|
    ensures !EndsWithHash(l.head + FilledSlots(l.slots[..k], table))
  {
    if k > 0 {
      var s := l.slots;
      assert s[..k] == s[..k - 1] + [s[k - 1]];
      FilledSlotsAppend(s[..k - 1], [s[k - 1]], table);
      var a := s[k - 1].after;
      assert a != "";
      var text := l.head + FilledSlots(s[..k], table);
      assert text[|text| - 1] == a[|a| - 1];
    }
  }

  // ----- Placeholder starts -----

  /** Every token. */
  const AllTokens: set<Token> :=
    {Name, NodePath, NodeArgs, ProgramPath, ProgramArgs, RunLevelsArr, RunLevelsStr, Dependencies, SystemdWantedBy}

  lemma AllTokensComplete()
    ensures forall u: Token :: u in AllTokens
  {
    forall u: Token
      ensures u in AllTokens
    {
      match u
      case Name =>
      case NodePath =>
      case NodeArgs =>
      case ProgramPath =>
      case ProgramArgs =>
      case RunLevelsArr =>
      case RunLevelsStr =>
      case Dependencies =>
      case SystemdWantedBy =>
    }
  }

  /** Every placeholder start of `s` begins the placeholder of a token in `pending`. */
  predicate MarkersFrom(s: string, pending: set<Token>) {
    forall j | 0 <= j < |s| && MarkerAt(s, j) :: exists u | u in pending :: OccursAt(Placeholder(u), s, j)
  }

  lemma PlaceholderShape(u: Token)
    ensures |Placeholder(u)| == |TokenName(u)| + 4
    ensures Placeholder(u)[0] == '#' && Placeholder(u)[1] == '#' && IsUpper(Placeholder(u)[2])
    ensures forall i | 2 <= i < |TokenName(u)| + 2 :: Placeholder(u)[i] == TokenName(u)[i - 2] && Placeholder(u)[i] != '#'
    ensures Placeholder(u)[|TokenName(u)| + 2] == '#' && Placeholder(u)[|TokenName(u)| + 3] == '#'
  {
  }

  lemma PlaceholderLacksNewline(u: Token)
    ensures '\n' !in Placeholder(u)
  {
    PlaceholderShape(u);
  }

  /** A placeholder starts with a placeholder start. */
  lemma OccurrenceIsMarker(s: string, u: Token, j: int)
    requires OccursAt(Placeholder(u), s, j)
    ensures MarkerAt(s, j)
  {
    PlaceholderShape(u);
    var p := Placeholder(u);
    assert s[j..j + |p|] == p;
    assert s[j] == p[0] && s[j + 1] == p[1] && s[j + 2] == p[2];
  }

  /** The only placeholder start in a placeholder is at its beginning. */
  lemma PlaceholderMarkers(u: Token, pending: set<Token>)
    requires u in pending
    ensures MarkersFrom(Placeholder(u), pending)
  {
    var p := Placeholder(u);
    PlaceholderShape(u);
    forall j | MarkerAt(p, j)
      ensures exists w | w in pending :: OccursAt(Placeholder(w), p, j)
    {
      if j == 0 {
        assert p[0..|p|] == p;
        assert OccursAt(Placeholder(u), p, 0);
      } else {
        assert false;
      }
    }
  }

  /** Two placeholders that occur at the same position are the same. */
  lemma PrefixFree(s: string, j: int, u: Token, t: Token)
    requires OccursAt(Placeholder(u), s, j) && OccursAt(Placeholder(t), s, j)
    ensures u == t
  {
    var nu, nt := TokenName(u), TokenName(t);
    assert Placeholder(u) == "##" + nu + "##" && Placeholder(t) == "##" + nt + "##";
    BracketedPrefixFree(nu, nt, s, j);
    TokenNameInjective(u, t);
  }

  /** Two `##`-bracketed words without `#` that occur at the same index are the same word. */
  lemma BracketedPrefixFree(a: string, b: string, s: string, j: int)
    requires forall i | 0 <= i < |a| :: a[i] != '#'
    requires forall i | 0 <= i < |b| :: b[i] != '#'
    requires OccursAt("##" + a + "##", s, j) && OccursAt("##" + b + "##", s, j)
    ensures a == b
  {
    var pa, pb := "##" + a + "##", "##" + b + "##";
    if |a| == |b| {
      forall i | 0 <= i < |a|
        ensures a[i] == b[i]
      {
        CharOfOccurrence(pa, s, j, j + 2 + i);
        CharOfOccurrence(pb, s, j, j + 2 + i);
      }
    } else if |a| < |b| {
      CharOfOccurrence(pa, s, j, j + 2 + |a|);
      CharOfOccurrence(pb, s, j, j + 2 + |a|);
      assert false;
    } else {
      CharOfOccurrence(pa, s, j, j + 2 + |b|);
      CharOfOccurrence(pb, s, j, j + 2 + |b|);
      assert false;
    }
  }

  /** A placeholder start spanning two texts is ruled out by the characters where they meet. */
  predicate Seam(x: string, y: string) {
    !EndsWithHash(x) || SafeStart(y)
  }

  lemma NoMarkerAtSeam(x: string, y: string, j: int)
    requires Seam(x, y)
    requires |x| - 2 <= j < |x|
    ensures !MarkerAt(x + y, j)
  {
    if 0 <= j && j + 2 < |x + y| {
      if EndsWithHash(x) {
        assert (x + y)[|x|] == y[0];
      } else if |x| > 0 {
        assert (x + y)[|x| - 1] == x[|x| - 1];
      }
    }
  }

  lemma MarkersAppend(x: string, y: string, pending: set<Token>)
    requires MarkersFrom(x, pending) && MarkersFrom(y, pending) && Seam(x, y)
    ensures MarkersFrom(x + y, pending)
  {
    var s := x + y;
    forall j | MarkerAt(s, j)
      ensures exists u | u in pending :: OccursAt(Placeholder(u), s, j)
    {
      if j + 2 < |x| {
        assert s[j] == x[j] && s[j + 1] == x[j + 1] && s[j + 2] == x[j + 2];
        assert MarkerAt(x, j);
        var u :| u in pending && OccursAt(Placeholder(u), x, j);
        OccursInPrefix(Placeholder(u), x, y, j);
      } else if j >= |x| {
        assert s[j] == y[j - |x|] && s[j + 1] == y[j + 1 - |x|] && s[j + 2] == y[j + 2 - |x|];
        assert MarkerAt(y, j - |x|);
        var u :| u in pending && OccursAt(Placeholder(u), y, j - |x|);
        OccursInSuffix(Placeholder(u), x, y, j - |x|);
      } else {
        NoMarkerAtSeam(x, y, j);
        assert false;
      }
    }
  }

  lemma OccursInPrefix(p: string, x: string, y: string, j: int)
    requires OccursAt(p, x, j)
    ensures OccursAt(p, x + y, j)
  {
    assert (x + y)[j..j + |p|] == x[j..j + |p|];
  }

  lemma OccursInSuffix(p: string, x: string, y: string, j: int)
    requires OccursAt(p, y, j)
    ensures OccursAt(p, x + y, |x| + j)
  {
    assert (x + y)[|x| + j..|x| + j + |p|] == y[j..j + |p|];
  }

  lemma NoMarkerFrom(s: string, pending: set<Token>)
    requires NoMarker(s)
    ensures MarkersFrom(s, pending)
  {
  }

  /**
    * Appending filled slots keeps every placeholder start the start of a
    * pending placeholder, provided each slot's token is bound or pending.
    */
  lemma {:induction false} MarkersFill(x: string, slots: seq<Slot>, table: seq<Binding>, pending: set<Token>)
    requires MarkersFrom(x, pending)
    requires |slots| > 0 ==> !EndsWithHash(x)
    requires forall m | 0 <= m < |slots| - 1 :: slots[m].after != ""
    requires forall m | 0 <= m < |slots| :: Lookup(table, slots[m].token).Some? || slots[m].token in pending
    requires Clean(table)
    ensures MarkersFrom(x + FilledSlots(slots, table), pending)
    decreases |slots|
  {
    if |slots| == 0 {
      assert x + FilledSlots(slots, table) == x;
    } else {
      var x' := MarkersSlot(x, slots[0], table, pending);
      var rest := slots[1..];
      assert forall m | 0 <= m < |rest| :: rest[m] == slots[m + 1];
      MarkersFill(x', rest, table, pending);
      var r := FilledSlots(rest, table);
      assert FilledSlots(slots, table) == Fill(slots[0].token, table) + slots[0].after + r;
      assert x + FilledSlots(slots, table) == x' + r;
    }
  }

  /** One filled slot appended to a text: what MarkersFill needs at each step. */
  lemma MarkersSlot(x: string, slot: Slot, table: seq<Binding>, pending: set<Token>) returns (x': string)
    requires MarkersFrom(x, pending) && !EndsWithHash(x)
    requires Lookup(table, slot.token).Some? || slot.token in pending
    requires Clean(table)
    ensures x' == x + Fill(slot.token, table) + slot.after
    ensures MarkersFrom(x', pending)
    ensures slot.after != "" ==> !EndsWithHash(x')
  {
    var f := Fill(slot.token, table);
    LookupClean(table, slot.token);
    if Lookup(table, slot.token).Some? {
      NoMarkerFrom(f, pending);
    } else {
      PlaceholderMarkers(slot.token, pending);
    }
    MarkersAppend(x, f, pending);
    var a := slot.after;
    NoMarkerFrom(a, pending);
    MarkersAppend(x + f, a, pending);
    x' := x + f + a;
    if a != "" {
      assert x'[|x'| - 1] == a[|a| - 1];
    }
  }

  /** A text whose placeholder starts are all pending holds no placeholder of a token that is not. */
  lemma PendingAbsent(s: string, pending: set<Token>, t: Token)
    requires MarkersFrom(s, pending) && t !in pending
    ensures !Contains(s, Placeholder(t))
  {
    forall j | 0 <= j <= |s|
      ensures !OccursAt(Placeholder(t), s, j)
    {
      NotAtMarker(s, pending, t, j);
    }
  }

  lemma NotAtMarker(s: string, pending: set<Token>, t: Token, j: int)
    requires MarkersFrom(s, pending) && t !in pending
    ensures !OccursAt(Placeholder(t), s, j)
  {
    if OccursAt(Placeholder(t), s, j) {
      OccurrenceIsMarker(s, t, j);
      var u :| u in pending && OccursAt(Placeholder(u), s, j);
      PrefixFree(s, j, u, t);
      assert false;
    }
  }

  lemma NoMarkerNoPlaceholder(s: string, t: Token)
    requires NoMarker(s)
    ensures !Contains(s, Placeholder(t))
  {
    forall j | 0 <= j <= |s|
      ensures !OccursAt(Placeholder(t), s, j)
    {
      NoMarkerFrom(s, {});
      NotAtMarker(s, {}, t, j);
    }
  }

  /**
    * A placeholder whose token is not pending does not occur in the part of
    * a text before a prefix whose placeholder starts are all pending and
    * which does not end in `#`.
    */
  lemma NotBefore(x: string, rest: string, pending: set<Token>, t: Token, j: int)
    requires MarkersFrom(x, pending) && t !in pending && !EndsWithHash(x)
    requires 0 <= j < |x|
    ensures !OccursAt(Placeholder(t), x + rest, j)
  {
    var s := x + rest;
    if OccursAt(Placeholder(t), s, j) {
      OccurrenceIsMarker(s, t, j);
      if j + 2 < |x| {
        assert s[j] == x[j] && s[j + 1] == x[j + 1] && s[j + 2] == x[j + 2];
        assert MarkerAt(x, j);
        var u :| u in pending && OccursAt(Placeholder(u), x, j);
        OccursInPrefix(Placeholder(u), x, rest, j);
        PrefixFree(s, j, u, t);
        assert false;
      } else {
        NoMarkerAtSeam(x, rest, j);
        assert false;
      }
    }
  }

  // ----- One step of the chain -----

  /**
    * Replacing the placeholder of an unbound token in a filled line binds
    * that token: its slot, if the line has one, receives the value, and the
    * rest of the line is unchanged.
    */
  lemma ReplaceStep(l: TemplateLine, done: seq<Binding>, t: Token, v: string)
    requires Lookup(done, t) == None && Clean(done) && NoMarker(v)
    ensures ReplaceVerbatim(Filled(l, done), Placeholder(t), v) == Filled(l, done + [Binding(t, v)])
  {
    var d := done + [Binding(t, v)];
    forall u
      ensures Fill(u, d) == if u == t then v else Fill(u, done)
    {
      LookupSnoc(done, Binding(t, v), u);
    }
    AllTokensComplete();
    if k :| 0 <= k < |l.slots| && l.slots[k].token == t {
      ReplaceStepAt(l, done, t, v, k);
    } else {
      var text := Filled(l, done);
      FilledSlotsAgree(l.slots, done, d);
      NoMarkerFrom(l.head, AllTokens - {t});
      MarkersFill(l.head, l.slots, done, AllTokens - {t});
      PendingAbsent(text, AllTokens - {t}, t);
    }
  }

  /** The step when the line has a slot `k` for the token. */
  lemma ReplaceStepAt(l: TemplateLine, done: seq<Binding>, t: Token, v: string, k: int)
    requires Lookup(done, t) == None && Clean(done)
    requires 0 <= k < |l.slots| && l.slots[k].token == t
    requires forall u :: u in AllTokens
    requires forall u :: Fill(u, done + [Binding(t, v)]) == if u == t then v else Fill(u, done)
    ensures ReplaceVerbatim(Filled(l, done), Placeholder(t), v) == Filled(l, done + [Binding(t, v)])
  {
    var x, y := FilledSplit(l, done, k);
    assert Fill(t, done) == Placeholder(t);
    PrefixPending(l, done, t, k);
    ReplaceFirstAfter(x, y, AllTokens - {t}, t, v);
    BindingAround(l, done, t, v, k);
  }

  /** The filled text in front of slot `k` holds only placeholder starts of tokens other than the slot's. */
  lemma PrefixPending(l: TemplateLine, done: seq<Binding>, t: Token, k: int)
    requires Clean(done)
    requires 0 <= k < |l.slots| && l.slots[k].token == t
    requires forall u :: u in AllTokens
    ensures MarkersFrom(l.head + FilledSlots(l.slots[..k], done), AllTokens - {t})
    ensures !EndsWithHash(l.head + FilledSlots(l.slots[..k], done))
  {
    var pending := AllTokens - {t};
    NoMarkerFrom(l.head, pending);
    MarkersFill(l.head, l.slots[..k], done, pending);
    FilledBeforeEnd(l, done, k);
  }

  /** Binding the token of slot `k` changes that slot only. */
  lemma BindingAround(l: TemplateLine, done: seq<Binding>, t: Token, v: string, k: int)
    requires 0 <= k < |l.slots| && l.slots[k].token == t
    requires forall u :: Fill(u, done + [Binding(t, v)]) == if u == t then v else Fill(u, done)
    ensures Filled(l, done + [Binding(t, v)])
      == l.head + FilledSlots(l.slots[..k], done) + v + (l.slots[k].after + FilledSlots(l.slots[k + 1..], done))
  {
    var d := done + [Binding(t, v)];
    var x', y' := FilledSplit(l, d, k);
    FilledSlotsAgree(l.slots[..k], done, d);
    FilledSlotsAgree(l.slots[k + 1..], done, d);
  }

  /**
    * In a text made of a prefix whose placeholder starts are all pending,
    * the placeholder of a token that is not pending, and the rest, the
    * first occurrence of that placeholder is the one after the prefix.
    */
  lemma ReplaceFirstAfter(x: string, y: string, pending: set<Token>, t: Token, v: string)
    requires MarkersFrom(x, pending) && t !in pending && !EndsWithHash(x)
    ensures ReplaceVerbatim(x + Placeholder(t) + y, Placeholder(t), v) == x + v + y
  {
    var p := Placeholder(t);
    var text := x + p + y;
    assert text == x + (p + y);
    forall j | 0 <= j < |x|
      ensures !OccursAt(p, text, j)
    {
      NotBefore(x, p + y, pending, t, j);
    }
    assert text[|x|..|x| + |p|] == p;
    IndexOfIsFirst(text, p, |x|);
    assert text[..|x|] == x;
    assert text[|x| + |p|..] == y;
  }

  /** A text that is just the pattern is replaced whole. */
  lemma ReplaceWhole(p: string, v: string)
    ensures ReplaceVerbatim(p, p, v) == v
  {
    assert p[0..|p|] == p;
    IndexOfIsFirst(p, p, 0);
  }

  lemma InertLacksNewline(s: string, l: Line)
    requires s == LineText(l)
    ensures '\n' !in s
  {
    SlotsLackNewline(l.slots);
  }

  lemma {:induction false} SlotsLackNewline(slots: seq<Slot>)
    ensures '\n' !in SlotsText(slots)
    decreases |slots|
  {
    if |slots| > 0 {
      PlaceholderLacksNewline(slots[0].token);
      SlotsLackNewline(slots[1..]);
    }
  }

  lemma {:induction false} RenderLineAvoids(s: string, table: seq<Binding>, c: char)
    requires c !in s
    requires forall i | 0 <= i < |table| :: c !in table[i].value
    ensures c !in RenderLine(s, table)
    decreases |table|
  {
    if |table| > 0 {
      var n := |table|;
      RenderLineAvoids(s, table[..n - 1], c);
      var r := RenderLine(s, table[..n - 1]);
      var k := IndexOf(r, Placeholder(table[n - 1].token));
      if k >= 0 {
        assert r[..k] + r[k + |Placeholder(table[n - 1].token)|..] == r[..k] + r[k + |Placeholder(table[n - 1].token)|..];
        assert forall i | 0 <= i < k :: r[..k][i] == r[i];
      }
    }
  }
}
