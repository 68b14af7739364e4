/** Last Man Standing message templates: "{1K} kills {2D}" (src/lib/structures/LastManStandingUsage.ts). */
module UsageTemplate {
  import opened Banks
  import opened Text

  /** A JavaScript number: None is NaN. */
  type Number = Option<int>

  datatype Part = Text(text: string) | Index(index: Number)

  datatype Mark = Plain | Dies | Kills

  /** What a template is made of; a tag names contestant number n, counted from 1. */
  datatype Token = Words(words: string) | Tag(n: Number, mark: Mark)

  /** Number(s.charAt(i)): nothing and white space read as 0, other than digits as NaN. */
  function NumberAt(s: string, i: nat): Number {
    if i >= |s| || IsWhite(s[i]) then Some(0)
    else if '0' <= s[i] <= '9' then Some(s[i] as int - '0' as int)
    else None
  }

  function MinusOne(n: Number): Number {
    if n.Some? then Some(n.value - 1) else None
  }

  // ---------- What a template means ----------

  function Flush(current: string): seq<Token> {
    if current == "" then [] else [Words(current)]
  }

  function MarkAt(s: string, i: nat): Mark {
    if i < |s| && s[i] == 'D' then Dies else if i < |s| && s[i] == 'K' then Kills else Plain
  }

  /** Where reading goes on after a tag: the character closing it is skipped unseen. */
  function AfterTag(s: string): (r: string)
    requires s != ""
    ensures |r| < |s|
  {
    var k := if MarkAt(s, 2) == Plain then 3 else 4;
    if k <= |s| then s[k..] else ""
  }

  /** The tokens of a template, given the text read since the last one. */
  function Tokens(s: string, current: string): seq<Token>
    decreases |s|
  {
    if s == "" then Flush(current)
    else if s[0] == '{' then
      Flush(current) + [Tag(NumberAt(s, 1), MarkAt(s, 2))] + Tokens(AfterTag(s), "")
    else Tokens(s[1..], current + [s[0]])
  }

  function PartOf(t: Token): Part {
    if t.Words? then Text(t.words) else Index(MinusOne(t.n))
  }

  function Parts(ts: seq<Token>): (r: seq<Part>)
    ensures |r| == |ts|
    ensures forall i :: 0 <= i < |ts| ==> r[i] == PartOf(ts[i])
  {
    if ts == [] then [] else Parts(ts[..|ts| - 1]) + [PartOf(ts[|ts| - 1])]
  }

  /** The largest contestant number a template names, at least 0. */
  function Largest(ts: seq<Token>): (m: nat)
    ensures forall t :: t in ts && t.Tag? && t.n.Some? ==> t.n.value <= m
    ensures m > 0 ==> exists t :: t in ts && t.Tag? && t.n == Some(m)
  {
    if ts == [] then 0
    else
      var k := |ts| - 1;
      var m, t := Largest(ts[..k]), ts[k];
      assert forall x :: x in ts[..k] ==> x in ts;
      assert ts == ts[..k] + [t];
      if t.Tag? && t.n.Some? && t.n.value > m then
        assert t in ts && t.n == Some(t.n.value);
        t.n.value
      else m
  }

  function Marked(ts: seq<Token>, mark: Mark): set<Number> {
    set t | t in ts && t.Tag? && t.mark == mark :: MinusOne(t.n)
  }

  // ---------- The parser ----------

  function Shown(p: Part, values: seq<string>): string {
    match p
    case Text(s) => s
    case Index(k) => "**" + (if k.Some? && 0 <= k.value < |values| then values[k.value] else "undefined") + "**"
  }

  function Joined(ps: seq<Part>, values: seq<string>): string {
    if ps == [] then "" else Shown(ps[0], values) + Joined(ps[1..], values)
  }

  class LastManStandingUsage {
    var contestants: nat
    var deaths: set<Number>
    var killers: set<Number>
    var parts: seq<Part>

    /** The fields record exactly these tokens. */
    ghost predicate Records(ts: seq<Token>)
      reads this
    {
      && parts == Parts(ts)
      && contestants == Largest(ts)
      && deaths == Marked(ts, Dies)
      && killers == Marked(ts, Kills)
    }

    constructor (usage: string)
      ensures Records(Tokens(usage, ""))
    {
      contestants, deaths, killers, parts := 0, {}, {}, [];
      new;
      Parse(usage);
    }

    /** Pushing the text read so far, if there is any. */
    method PushText(current: string, ghost done: seq<Token>)
      requires Records(done)
      modifies this`parts
      ensures Records(done + Flush(current))
    {
      RecordedWords(done, current);
      if current != "" {
        parts := parts + [Text(current)];
      } else {
        assert done + Flush(current) == done;
      }
    }

    /** Reading one tag, from the brace at i to the last character it takes. */
    method ReadTag(usage: string, i: nat, ghost done: seq<Token>) returns (last: nat)
      requires Records(done)
      modifies this
      ensures Records(done + [Tag(NumberAt(usage, i + 1), MarkAt(usage, i + 2))])
      ensures last == i + if MarkAt(usage, i + 2) == Plain then 2 else 3
    {
      last := i + 1;
      var n := NumberAt(usage, last);
      RecordedTag(done, n, MarkAt(usage, i + 2));
      if n.Some? && n.value > contestants {
        contestants := n.value;
      }
      last := last + 1;
      var nextChar := last;
      if nextChar < |usage| && usage[nextChar] == 'D' {
        deaths := deaths + {MinusOne(n)};
        last := last + 1;
      } else if nextChar < |usage| && usage[nextChar] == 'K' {
        killers := killers + {MinusOne(n)};
        last := last + 1;
      }
      parts := parts + [Index(MinusOne(n))];
    }

    method Parse(usage: string)
      requires Records([])
      modifies this
      ensures Records(Tokens(usage, ""))
    {
      var current := "";
      ghost var done: seq<Token> := [];
      var i := 0;
      ReadNothing(usage);
      while i < |usage|
        invariant Records(done)
        invariant ReadUpTo(usage, i, current, done)
      {
        if usage[i] == '{' {
          TagAt(usage, i, current, done);
          PushText(current, done);
          done := done + Flush(current);
          current := "";
          ghost var tag := Tag(NumberAt(usage, i + 1), MarkAt(usage, i + 2));
          i := ReadTag(usage, i, done);
          done := done + [tag];
        } else {
          TextAt(usage, i, current, done);
          current := current + [usage[i]];
        }
        i := i + 1;
      }
      PushText(current, done);
    }

    function Display(values: seq<string>): string
      reads this
    {
      Joined(parts, values)
    }
  }

  function Rest(s: string, i: nat): string {
    if i <= |s| then s[i..] else ""
  }

  /** These tokens, then those of what is left, are the whole template's. */
  ghost predicate ReadUpTo(s: string, i: nat, current: string, done: seq<Token>) {
    && Tokens(s, "") == done + Tokens(Rest(s, i), current)
    && (i >= |s| ==> Tokens(s, "") == done + Flush(current))
  }

  lemma ReadNothing(s: string)
    ensures ReadUpTo(s, 0, "", [])
  {
    assert s[0..] == s;
  }

  lemma TagAt(s: string, i: nat, current: string, done: seq<Token>)
    requires i < |s| && s[i] == '{' && ReadUpTo(s, i, current, done)
    ensures ReadUpTo(s, i + (if MarkAt(s, i + 2) == Plain then 3 else 4), "",
                     done + Flush(current) + [Tag(NumberAt(s, i + 1), MarkAt(s, i + 2))])
  {
    var rest := Rest(s, i);
    var next := i + if MarkAt(s, i + 2) == Plain then 3 else 4;
    assert NumberAt(rest, 1) == NumberAt(s, i + 1) && MarkAt(rest, 2) == MarkAt(s, i + 2);
    assert AfterTag(rest) == Rest(s, next);
    var tag := Tag(NumberAt(s, i + 1), MarkAt(s, i + 2));
    assert Tokens(rest, current) == Flush(current) + [tag] + Tokens(Rest(s, next), "");
    assert done + (Flush(current) + [tag] + Tokens(Rest(s, next), ""))
        == done + Flush(current) + [tag] + Tokens(Rest(s, next), "");
  }

  lemma TextAt(s: string, i: nat, current: string, done: seq<Token>)
    requires i < |s| && s[i] != '{' && ReadUpTo(s, i, current, done)
    ensures ReadUpTo(s, i + 1, current + [s[i]], done)
  {
    assert Rest(s, i)[1..] == Rest(s, i + 1);
  }

  lemma RecordedWords(ts: seq<Token>, w: string)
    ensures var more := ts + [Words(w)];
            && Parts(more) == Parts(ts) + [Text(w)]
            && Largest(more) == Largest(ts)
            && Marked(more, Dies) == Marked(ts, Dies)
            && Marked(more, Kills) == Marked(ts, Kills)
  {
    assert (ts + [Words(w)])[..|ts|] == ts;
    MarkedMore(ts, Words(w), Dies);
    MarkedMore(ts, Words(w), Kills);
  }

  lemma RecordedTag(ts: seq<Token>, n: Number, mark: Mark)
    ensures var more := ts + [Tag(n, mark)];
            && Parts(more) == Parts(ts) + [Index(MinusOne(n))]
            && Largest(more) == (if n.Some? && n.value > Largest(ts) then n.value else Largest(ts))
            && Marked(more, Dies) == (if mark == Dies then Marked(ts, Dies) + {MinusOne(n)} else Marked(ts, Dies))
            && Marked(more, Kills) == (if mark == Kills then Marked(ts, Kills) + {MinusOne(n)} else Marked(ts, Kills))
  {
    assert (ts + [Tag(n, mark)])[..|ts|] == ts;
    MarkedMore(ts, Tag(n, mark), Dies);
    MarkedMore(ts, Tag(n, mark), Kills);
  }

  lemma MarkedMore(ts: seq<Token>, t: Token, mark: Mark)
    ensures Marked(ts + [t], mark) ==
            if t.Tag? && t.mark == mark then Marked(ts, mark) + {MinusOne(t.n)} else Marked(ts, mark)
  {
    var more, x := ts + [t], Marked(ts + [t], mark);
    forall k | k in Marked(ts, mark) ensures k in x
    {
      var u :| u in ts && u.Tag? && u.mark == mark && MinusOne(u.n) == k;
      assert u in more;
    }
    if t.Tag? && t.mark == mark {
      assert t in more;
      assert MinusOne(t.n) in x;
    }
  }

  // ---------- Printing, and reading back ----------

  function Digit(n: nat): char
    requires n <= 9
  {
    ('0' as int + n) as char
  }

  function Printed(t: Token): string {
    match t
    case Words(w) => w
    case Tag(n, mark) =>
      "{" + (if n.Some? && 0 <= n.value <= 9 then [Digit(n.value)] else "")
      + (match mark case Plain => "" case Dies => "D" case Kills => "K") + "}"
  }

  function Print(ts: seq<Token>): string {
    if ts == [] then "" else Printed(ts[0]) + Print(ts[1..])
  }

  /** A token as its author meant it. */
  predicate Proper(t: Token) {
    match t
    case Words(w) => w != "" && '{' !in w
    case Tag(n, _) => n.Some? && 0 <= n.value <= 9
  }

  /** Proper tokens, no two texts in a row. */
  predicate Canonical(ts: seq<Token>) {
    ts != [] ==> Proper(ts[0]) && (ts[0].Words? && |ts| > 1 ==> ts[1].Tag?) && Canonical(ts[1..])
  }

  lemma {:induction false} TokensOfText(w: string, s: string, current: string)
    requires '{' !in w
    ensures Tokens(w + s, current) == Tokens(s, current + w)
    decreases |w|
  {
    if w == "" {
      assert w + s == s && current + w == current;
    } else {
      assert (w + s)[1..] == w[1..] + s;
      TokensOfText(w[1..], s, current + [w[0]]);
      assert current + [w[0]] + w[1..] == current + w;
    }
  }

  lemma TokensOfTag(n: Number, mark: Mark, s: string, current: string)
    requires Proper(Tag(n, mark))
    ensures Tokens(Printed(Tag(n, mark)) + s, current) == Flush(current) + ([Tag(n, mark)] + Tokens(s, ""))
  {
    var p := Printed(Tag(n, mark)) + s;
    assert p[0] == '{' && p[1] == Digit(n.value);
    assert MarkAt(p, 2) == mark;
    assert AfterTag(p) == s;
    Associative(Flush(current), [Tag(n, mark)], Tokens(s, ""));
  }

  lemma Associative(a: seq<Token>, b: seq<Token>, c: seq<Token>)
    ensures a + b + c == a + (b + c)
  {
  }

  lemma ReadTagThen(n: Number, mark: Mark, rest: string, current: string, tail: seq<Token>)
    requires Proper(Tag(n, mark)) && Tokens(rest, "") == tail
    ensures Tokens(Printed(Tag(n, mark)) + rest, current) == Flush(current) + ([Tag(n, mark)] + tail)
  {
    TokensOfTag(n, mark, rest, current);
  }

  lemma ReadWordsThen(w: string, rest: string, tail: seq<Token>)
    requires Proper(Words(w)) && Tokens(rest, w) == Flush(w) + tail
    ensures Tokens(w + rest, "") == [Words(w)] + tail
  {
    TokensOfText(w, rest, "");
    assert "" + w == w;
  }

  /** Reading a printed template gives back its tokens. */
  lemma {:induction false} ReadPrinted(ts: seq<Token>, current: string)
    requires Canonical(ts)
    requires current != "" ==> ts == [] || ts[0].Tag?
    ensures Tokens(Print(ts), current) == Flush(current) + ts
  {
    if ts == [] {
      assert Flush(current) + [] == Flush(current);
    } else {
      var tail := ts[1..];
      assert ts == [ts[0]] + tail;
      assert Flush("") + tail == tail && Flush("") + ts == ts;
      match ts[0]
      case Tag(n, mark) =>
        ReadPrinted(tail, "");
        ReadTagThen(n, mark, Print(tail), current, tail);
      case Words(w) =>
        ReadPrinted(tail, w);
        ReadWordsThen(w, Print(tail), tail);
    }
  }

  /** Every tag is a digit, perhaps a mark, and a closing brace. */
  predicate WellFormed(s: string) {
    if s == "" then true
    else if s[0] != '{' then WellFormed(s[1..])
    else
      && |s| >= 3 && '0' <= s[1] <= '9'
      && (if s[2] == 'D' || s[2] == 'K' then |s| >= 4 && s[3] == '}' && WellFormed(s[4..])
          else s[2] == '}' && WellFormed(s[3..]))
  }

  lemma PrintMore(current: string, t: Token, rest: seq<Token>)
    requires '{' !in current && t.Tag? && Proper(t) && Canonical(rest)
    ensures Canonical(Flush(current) + [t] + rest)
    ensures Print(Flush(current) + [t] + rest) == current + (Printed(t) + Print(rest))
  {
    assert ([t] + rest)[1..] == rest;
    var ts := Flush(current) + [t] + rest;
    if current == "" {
      assert ts == [t] + rest;
    } else {
      assert ts[1..] == [t] + rest;
    }
  }

  lemma WellFormedTag(s: string)
    requires s != "" && s[0] == '{' && WellFormed(s)
    ensures var t := Tag(NumberAt(s, 1), MarkAt(s, 2));
            Proper(t) && WellFormed(AfterTag(s)) && s == Printed(t) + AfterTag(s)
  {
  }

  lemma PrintReadTag(s: string, current: string)
    requires s != "" && s[0] == '{' && WellFormed(s) && '{' !in current
    requires Canonical(Tokens(AfterTag(s), "")) && Print(Tokens(AfterTag(s), "")) == AfterTag(s)
    ensures Canonical(Tokens(s, current)) && Print(Tokens(s, current)) == current + s
  {
    var t, rest := Tag(NumberAt(s, 1), MarkAt(s, 2)), Tokens(AfterTag(s), "");
    WellFormedTag(s);
    PrintMore(current, t, rest);
    assert Tokens(s, current) == Flush(current) + [t] + rest;
  }

  /** A well-formed template is the printed form of its tokens, which are canonical. */
  lemma {:induction false} PrintRead(s: string, current: string)
    requires WellFormed(s) && '{' !in current
    ensures Canonical(Tokens(s, current)) && Print(Tokens(s, current)) == current + s
    decreases |s|
  {
    if s == "" {
      assert current + s == current;
    } else if s[0] != '{' {
      PrintRead(s[1..], current + [s[0]]);
      assert current + [s[0]] + s[1..] == current + s;
    } else {
      WellFormedTag(s);
      PrintRead(AfterTag(s), "");
      assert "" + AfterTag(s) == AfterTag(s);
      PrintReadTag(s, current);
    }
  }

  lemma {:induction false} WellFormedText(w: string, s: string)
    requires '{' !in w
    ensures WellFormed(w + s) <==> WellFormed(s)
  {
    if w == "" {
      assert w + s == s;
    } else {
      assert (w + s)[1..] == w[1..] + s;
      WellFormedText(w[1..], s);
    }
  }

  lemma {:induction false} PrintedIsWellFormed(ts: seq<Token>)
    requires Canonical(ts)
    ensures WellFormed(Print(ts))
  {
    if ts != [] {
      PrintedIsWellFormed(ts[1..]);
      match ts[0]
      case Tag(n, mark) =>
        var p := Print(ts);
        var k := |Printed(ts[0])|;
        assert p[k..] == Print(ts[1..]);
      case Words(w) => WellFormedText(w, Print(ts[1..]));
    }
  }

  /** Parsing and printing are inverse between the well-formed templates and the canonical token lists. */
  lemma RoundTrip(s: string, ts: seq<Token>)
    ensures WellFormed(s) && Tokens(s, "") == ts <==> Canonical(ts) && Print(ts) == s
  {
    if WellFormed(s) {
      PrintRead(s, "");
      assert "" + s == s;
    }
    if Canonical(ts) {
      ReadPrinted(ts, "");
      PrintedIsWellFormed(ts);
      assert Flush("") + ts == ts;
    }
  }

  /** The character after a tag is skipped unseen: whatever stands in the brace's place is lost. */
  lemma UnclosedTagIsLost(n: nat, c: char, rest: string)
    requires n <= 9 && c != 'D' && c != 'K'
    ensures Tokens("{" + [Digit(n), c] + rest, "") == Tokens("{" + [Digit(n)] + "}" + rest, "")
  {
    TagThenAnything(n, c, rest);
    TagThenAnything(n, '}', rest);
    assert "{" + [Digit(n), '}'] + rest == "{" + [Digit(n)] + "}" + rest;
  }

  lemma TagThenAnything(n: nat, c: char, rest: string)
    requires n <= 9 && c != 'D' && c != 'K'
    ensures Tokens("{" + [Digit(n), c] + rest, "") == [Tag(Some(n), Plain)] + Tokens(rest, "")
  {
    var s := "{" + [Digit(n), c] + rest;
    assert s[0] == '{' && s[1] == Digit(n) && s[2] == c;
    assert AfterTag(s) == rest;
    assert [] + [Tag(Some(n), Plain)] == [Tag(Some(n), Plain)];
  }

  /** What a tag's character makes of it: a digit its number, white space 0, and anything else no number at all. */
  ghost predicate NumbersTag(c: char, n: Number) {
    if IsWhite(c) then n == Some(0)
    else if IsDigit(c) then n.Some? && 0 <= n.value <= 9 && Decimal(n.value) == [c]
    else n == None
  }

  lemma TagReads(c: char, x: char, rest: string, n: Number)
    requires x != 'D' && x != 'K' && NumbersTag(c, n)
    ensures Tokens("{" + [c, x] + rest, "") == [Tag(n, Plain)] + Tokens(rest, "")
  {
    var s := "{" + [c, x] + rest;
    assert s[0] == '{' && s[1] == c && s[2] == x;
    assert AfterTag(s) == rest;
    if IsDigit(c) && !IsWhite(c) {
      assert Decimal(n.value)[0] == ('0' as int + n.value) as char;
    }
    assert [] + [Tag(n, Plain)] == [Tag(n, Plain)];
  }

  /** A brace at the very end is a tag of number 0. */
  lemma LastBraceIsZero()
    ensures Tokens("{", "") == [Tag(Some(0), Plain)]
  {
    assert AfterTag("{") == "";
    assert [] + [Tag(Some(0), Plain)] + [] == [Tag(Some(0), Plain)];
  }

  /** A template object lists who dies and who kills, counted from 0. */
  lemma RecordsFates(u: LastManStandingUsage, ts: seq<Token>, n: int)
    requires u.Records(ts)
    ensures Some(n - 1) in u.deaths <==> Tag(Some(n), Dies) in ts
    ensures Some(n - 1) in u.killers <==> Tag(Some(n), Kills) in ts
  {
    assert MinusOne(Some(n)) == Some(n - 1);
  }

  // ---------- Showing a template ----------

  /** A tag becomes its contestant's name in bold, a text stays as it is. */
  function Filled(t: Token, names: seq<string>): string {
    match t
    case Words(w) => w
    case Tag(n, _) => "**" + (if n.Some? && 1 <= n.value <= |names| then names[n.value - 1] else "undefined") + "**"
  }

  function Substituted(ts: seq<Token>, names: seq<string>): string {
    if ts == [] then "" else Filled(ts[0], names) + Substituted(ts[1..], names)
  }

  lemma ShownIsFilled(t: Token, names: seq<string>)
    ensures Shown(PartOf(t), names) == Filled(t, names)
  {
  }

  lemma PartsFromFront(ts: seq<Token>)
    requires ts != []
    ensures Parts(ts)[0] == PartOf(ts[0]) && Parts(ts)[1..] == Parts(ts[1..])
  {
  }

  lemma {:induction false} DisplaySubstitutes(ts: seq<Token>, names: seq<string>)
    ensures Joined(Parts(ts), names) == Substituted(ts, names)
  {
    if ts != [] {
      PartsFromFront(ts);
      ShownIsFilled(ts[0], names);
      DisplaySubstitutes(ts[1..], names);
    }
  }

  /** A printed template shows as the substitution of its tokens. */
  lemma PrintedDisplays(ts: seq<Token>, names: seq<string>)
    requires Canonical(ts)
    ensures Joined(Parts(Tokens(Print(ts), "")), names) == Substituted(ts, names)
  {
    RoundTrip(Print(ts), ts);
    DisplaySubstitutes(ts, names);
  }

  /** A template object shows the substitution of the tokens it recorded. */
  lemma DisplayIsSubstitution(u: LastManStandingUsage, ts: seq<Token>, names: seq<string>)
    requires u.Records(ts)
    ensures u.Display(names) == Substituted(ts, names)
  {
    DisplaySubstitutes(ts, names);
  }

  /** The tag is shown as a name, not as "undefined". */
  predicate HasName(t: Token, names: seq<string>) {
    t.Tag? ==> t.n.Some? && 1 <= t.n.value <= |names|
  }

  /** Every tag gets a name if and only if there are as many names as contestants and every tag is a digit from 1. */
  lemma EveryTagNamedIff(ts: seq<Token>, names: seq<string>)
    ensures (forall t :: t in ts ==> HasName(t, names)) <==>
            |names| >= Largest(ts) && forall t :: t in ts && t.Tag? ==> t.n.Some? && t.n.value >= 1
  {
    if (forall t :: t in ts ==> HasName(t, names)) && Largest(ts) > 0 {
      var t :| t in ts && t.Tag? && t.n == Some(Largest(ts));
      assert HasName(t, names);
    }
  }
}
