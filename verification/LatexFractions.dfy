/** The `\frac` loop of `remote_terminal/brain_latex.py`: one left-to-right substitution pass, repeated until
    nothing changes. */
module LatexFractions {
  import opened Prelude

  const FRAC := "\\frac{"

  predicate Brace(c: char) { c == '{' || c == '}' }

  /** Length of the longest prefix without braces. */
  function Run(t: string): (k: nat)
    ensures k <= |t|
  {
    if t == "" || Brace(t[0]) then 0 else 1 + Run(t[1..])
  }

  /** What follows an opening brace: a brace-free body, the closing brace, the rest. */
  function Body(t: string): Option<(string, string)> {
    if Run(t) < |t| && t[Run(t)] == '}' then Some((t[..Run(t)], t[Run(t) + 1..])) else None
  }

  /** An opening brace with its body. */
  function Braced(t: string): Option<(string, string)> {
    if t == "" || t[0] != '{' then None else Body(t[1..])
  }

  /** What follows `\frac{`: a body, a braced body, the rest. */
  function Parts(t: string): Option<(string, string, string)> {
    match Body(t)
    case None => None
    case Some((num, r)) =>
      match Braced(r)
      case None => None
      case Some((den, rest)) => Some((num, den, rest))
  }

  /** A fraction with brace-free parts at the start of the text: numerator, denominator, rest. */
  function Match(t: string): Option<(string, string, string)> {
    if FRAC <= t then Parts(t[6..]) else None
  }

  function Infix(num: string, den: string): string { "(" + num + ")/(" + den + ")" }

  lemma MatchShorter(t: string)
    requires Match(t).Some?
    ensures var (num, den, rest) := Match(t).value;
      && t == FRAC + num + "}{" + den + "}" + rest
      && Run(num) == |num| && Run(den) == |den|
  {
    var (num, den, rest) := Match(t).value;
    assert t == FRAC + t[6..];
    PartsSplit(t[6..]);
    Assemble(t, FRAC, num, den, rest);
  }

  lemma PartsSplit(t: string)
    requires Parts(t).Some?
    ensures var (num, den, rest) := Parts(t).value;
      t == num + ("}{" + (den + ("}" + rest))) && Run(num) == |num| && Run(den) == |den|
  {
    BodySplit(t);
    var (num, r) := Body(t).value;
    BodySplit(r[1..]);
    var (den, rest) := Braced(r).value;
    Brackets(r, den + ("}" + rest));
    Reassociate(den, "}", rest);
    Reassociate(num, "}", r);
  }

  lemma Brackets(r: string, v: string)
    requires r != "" && r[0] == '{' && r[1..] == v
    ensures "}" + r == "}{" + v
  {
  }

  lemma Assemble(t: string, frac: string, num: string, den: string, rest: string)
    requires t == frac + (num + ("}{" + (den + ("}" + rest))))
    ensures t == frac + num + "}{" + den + "}" + rest
  {
    Reassociate(frac, num, "}{" + (den + ("}" + rest)));
    Reassociate(frac + num, "}{", den + ("}" + rest));
    Reassociate(frac + num + "}{", den, "}" + rest);
    Reassociate(frac + num + "}{" + den, "}", rest);
  }

  lemma BodySplit(t: string)
    requires Body(t).Some?
    ensures var (b, rest) := Body(t).value; t == b + "}" + rest && Run(b) == |b|
  {
    RunPrefix(t);
  }

  lemma RunPrefix(t: string)
    ensures Run(t[..Run(t)]) == Run(t)
  {
    if t != "" && !Brace(t[0]) {
      RunPrefix(t[1..]);
      assert t[..Run(t)][1..] == t[1..][..Run(t[1..])];
    }
  }

  /** One substitution pass over the text. */
  function Sub(t: string): string
    decreases |t|
  {
    if t == "" then ""
    else if Match(t).Some? then
      MatchShorter(t);
      var (num, den, rest) := Match(t).value;
      Infix(num, den) + Sub(rest)
    else [t[0]] + Sub(t[1..])
  }

  function Braces(t: string): nat {
    if t == "" then 0 else (if Brace(t[0]) then 1 else 0) + Braces(t[1..])
  }

  lemma {:induction false} BracesConcat(s: string, t: string)
    ensures Braces(s + t) == Braces(s) + Braces(t)
  {
    if s == "" {
      assert s + t == t;
    } else {
      BracesConcat(s[1..], t);
      assert (s + t)[1..] == s[1..] + t;
    }
  }

  lemma {:induction false} RunNoBraces(t: string)
    ensures Run(t) == |t| <==> Braces(t) == 0
  {
    if t != "" {
      RunNoBraces(t[1..]);
    }
  }

  lemma MatchBraces(t: string)
    requires Match(t).Some?
    ensures var (num, den, rest) := Match(t).value;
      Braces(t) == 4 + Braces(rest) && Braces(Infix(num, den)) == 0
  {
    var (num, den, rest) := Match(t).value;
    MatchShorter(t);
    RunNoBraces(num);
    RunNoBraces(den);
    BracesConcat(FRAC + num + "}{" + den + "}", rest);
    BracesConcat(FRAC + num + "}{" + den, "}");
    BracesConcat(FRAC + num + "}{", den);
    BracesConcat(FRAC + num, "}{");
    BracesConcat(FRAC, num);
    BracesConcat("(" + num + ")/(" + den, ")");
    BracesConcat("(" + num + ")/(", den);
    BracesConcat("(" + num, ")/(");
    BracesConcat("(", num);
    LiteralBraces();
  }

  lemma LiteralBraces()
    ensures Braces(FRAC) == 1 && Braces("}{") == 2 && Braces("}") == 1
    ensures Braces("(") == 0 && Braces(")/(") == 0 && Braces(")") == 0
  {
    assert FRAC[1..] == "frac{" && "frac{"[1..] == "rac{" && "rac{"[1..] == "ac{";
    assert "ac{"[1..] == "c{" && "c{"[1..] == "{";
    assert "{"[1..] == "" && "}{"[1..] == "{" && "}"[1..] == "";
    assert "("[1..] == "" && ")/("[1..] == "/(" && "/("[1..] == "(" && ")"[1..] == "";
  }

  /** On any text at all, a pass that changes something removes braces: the loop ends. */
  lemma {:induction false} PassRemovesBraces(t: string)
    ensures Braces(Sub(t)) <= Braces(t)
    ensures Sub(t) != t ==> Braces(Sub(t)) < Braces(t)
    decreases |t|
  {
    if t == "" {
    } else if Match(t).Some? {
      var (num, den, rest) := Match(t).value;
      MatchShorter(t);
      MatchBraces(t);
      PassRemovesBraces(rest);
      BracesConcat(Infix(num, den), Sub(rest));
    } else {
      PassRemovesBraces(t[1..]);
      assert ([t[0]] + Sub(t[1..]))[1..] == Sub(t[1..]);
      assert [t[0]] + t[1..] == t;
    }
  }

  function Fix(t: string): string
    decreases Braces(t)
  {
    PassRemovesBraces(t);
    if Sub(t) == t then t else Fix(Sub(t))
  }

  method Delatex(text: string) returns (t: string)
    ensures t == Fix(text)
    ensures Sub(t) == t
  {
    t := text;
    var prev: Option<string> := None;
    while prev != Some(t)
      invariant Fix(t) == Fix(text)
      invariant prev.Some? ==> t == Sub(prev.value)
      decreases prev.None?, if prev.Some? && prev.value == t then 0 else 1 + Braces(t)
    {
      prev := Some(t);
      PassRemovesBraces(t);
      t := SubstituteAll(t);
    }
  }

  /** `re.sub`: matches are replaced from left to right, each scan resuming where the last match ended. */
  method SubstituteAll(text: string) returns (out: string)
    ensures out == Sub(text)
  {
    out := "";
    var rest := text;
    while rest != ""
      invariant out + Sub(rest) == Sub(text)
      decreases |rest|
    {
      var m := Match(rest);
      if m.Some? {
        MatchShorter(rest);
        Reassociate(out, Infix(m.value.0, m.value.1), Sub(m.value.2));
        out := out + Infix(m.value.0, m.value.1);
        rest := m.value.2;
      } else {
        Reassociate(out, [rest[0]], Sub(rest[1..]));
        out := out + [rest[0]];
        rest := rest[1..];
      }
    }
  }

  // ---- LaTeX as a tree ----

  /** Balanced text in which every `\frac{` starts a two-part fraction. */
  datatype Doc =
    | End
    | Text(c: char, rest: Doc)
    | Group(body: Doc, rest: Doc)
    | Frac(num: Doc, den: Doc, rest: Doc)

  function Render(d: Doc): string {
    match d
    case End => ""
    case Text(c, r) => [c] + Render(r)
    case Group(b, r) => "{" + (Render(b) + ("}" + Render(r)))
    case Frac(n, e, r) => FRAC + (Render(n) + ("}{" + (Render(e) + ("}" + Render(r)))))
  }

  /** Text holds no braces, and does not spell out a `\frac{` of its own. */
  predicate WellFormed(d: Doc) {
    match d
    case End => true
    case Text(c, r) => !Brace(c) && (c == '\\' ==> !("frac{" <= Render(r))) && WellFormed(r)
    case Group(b, r) => WellFormed(b) && WellFormed(r)
    case Frac(n, e, r) => WellFormed(n) && WellFormed(e) && WellFormed(r)
  }

  predicate Flat(d: Doc) {
    match d
    case End => true
    case Text(_, r) => Flat(r)
    case _ => false
  }

  /** Text in front of a document. */
  function Lift(s: string, d: Doc): Doc {
    if s == "" then d else Text(s[0], Lift(s[1..], d))
  }

  /** One pass on the tree: the innermost fractions become text. */
  function Pass(d: Doc): Doc {
    match d
    case End => End
    case Text(c, r) => Text(c, Pass(r))
    case Group(b, r) => Group(Pass(b), Pass(r))
    case Frac(n, e, r) =>
      if Flat(n) && Flat(e) then Lift(Infix(Render(n), Render(e)), Pass(r))
      else Frac(Pass(n), Pass(e), Pass(r))
  }

  /** The reference: a fraction becomes infix text once both of its parts have become plain text. */
  function Settle(d: Doc): Doc {
    match d
    case End => End
    case Text(c, r) => Text(c, Settle(r))
    case Group(b, r) => Group(Settle(b), Settle(r))
    case Frac(n, e, r) =>
      var n', e' := Settle(n), Settle(e);
      if Flat(n') && Flat(e') then Lift(Infix(Render(n'), Render(e')), Settle(r))
      else Frac(n', e', Settle(r))
  }

  lemma {:induction false} RenderLift(s: string, d: Doc)
    ensures Render(Lift(s, d)) == s + Render(d)
  {
    if s == "" {
      assert s + Render(d) == Render(d);
    } else {
      RenderLift(s[1..], d);
      assert s == [s[0]] + s[1..];
      Reassociate([s[0]], s[1..], Render(d));
    }
  }

  lemma {:induction false} FlatRender(d: Doc)
    requires WellFormed(d) && Flat(d)
    ensures Run(Render(d)) == |Render(d)|
  {
    if d.Text? {
      FlatRender(d.rest);
      assert Render(d)[1..] == Render(d.rest);
    }
  }

  // ---- one pass on the text is one pass on the tree ----

  lemma {:induction false} RunSkip(s: string, t: string)
    requires Run(s) == |s|
    ensures Run(s + t) == |s| + Run(t)
  {
    if s == "" {
      assert s + t == t;
    } else {
      RunSkip(s[1..], t);
      assert (s + t)[1..] == s[1..] + t;
    }
  }

  lemma FracWord()
    ensures FRAC == "\\frac" + "{" && Run("\\frac") == 5
  {
    var w := "\\frac";
    assert w[1..] == "frac" && w[1..][1..] == "rac" && "rac"[1..] == "ac" && "ac"[1..] == "c" && "c"[1..] == "";
  }

  /** Scanning a rendered document for a brace: plain text runs to its end, anything else stops at an opening brace. */
  lemma {:induction false} RunRender(d: Doc, u: string)
    requires WellFormed(d) && u != "" && u[0] == '}'
    ensures Flat(d) ==> Run(Render(d) + u) == |Render(d)|
    ensures !Flat(d) ==> Run(Render(d) + u) < |Render(d)| && Render(d)[Run(Render(d) + u)] == '{'
  {
    match d
    case End => assert Render(d) + u == u;
    case Text(c, r) =>
      RunRender(r, u);
      assert (Render(d) + u)[1..] == Render(r) + u;
    case Group(b, r) => assert (Render(d) + u)[0] == '{';
    case Frac(n, e, r) => RunFrac(Render(n) + ("}{" + (Render(e) + ("}" + Render(r)))), u);
  }

  lemma RunFrac(body: string, u: string)
    ensures Run(FRAC + body + u) == 5 < |FRAC + body| && (FRAC + body)[5] == '{'
  {
    FracWord();
    var tail := "{" + body;
    assert FRAC + body == "\\frac" + tail;
    assert "\\frac" + tail + u == "\\frac" + (tail + u);
    RunSkip("\\frac", tail + u);
  }

  lemma BodyRender(d: Doc, u: string)
    requires WellFormed(d)
    ensures Body(Render(d) + ("}" + u)) == if Flat(d) then Some((Render(d), u)) else None
  {
    var v := "}" + u;
    var t := Render(d) + v;
    RunRender(d, v);
    assert v[1..] == u;
    if Flat(d) {
      assert t[..|Render(d)|] == Render(d) && t[|Render(d)| + 1..] == u;
    }
  }

  lemma BracedRender(d: Doc, u: string)
    requires WellFormed(d)
    ensures Braced("{" + (Render(d) + ("}" + u))) == if Flat(d) then Some((Render(d), u)) else None
  {
    BodyRender(d, u);
    assert ("{" + (Render(d) + ("}" + u)))[1..] == Render(d) + ("}" + u);
  }

  /** A fraction matches where it stands exactly when both parts are plain text. */
  lemma MatchRender(n: Doc, e: Doc, u: string)
    requires WellFormed(n) && WellFormed(e)
    ensures Match(FRAC + (Render(n) + ("}{" + (Render(e) + ("}" + u))))) ==
            if Flat(n) && Flat(e) then Some((Render(n), Render(e), u)) else None
  {
    var inner := "{" + (Render(e) + ("}" + u));
    MatchParts(Render(n) + ("}" + inner));
    Brackets(inner, Render(e) + ("}" + u));
    BodyRender(n, inner);
    BracedRender(e, u);
  }

  /** After `\frac{` come the two braced parts. */
  lemma MatchParts(body: string)
    ensures Match(FRAC + body) == Parts(body)
  {
    assert (FRAC + body)[6..] == body;
  }

  lemma NoMatch(t: string)
    requires t != "" && !(FRAC <= t)
    ensures Sub(t) == [t[0]] + Sub(t[1..])
  {
  }

  lemma FracStart(u: string)
    ensures FRAC <= u ==> u[0] == '\\' && "frac{" <= u[1..]
  {
    if FRAC <= u {
      assert u == FRAC + u[6..];
      assert u[1..] == "frac{" + u[6..];
    }
  }

  lemma SubChar(c: char, t: string)
    requires c == '\\' ==> !("frac{" <= t)
    ensures Sub([c] + t) == [c] + Sub(t)
  {
    var u := [c] + t;
    assert u[1..] == t;
    FracStart(u);
    NoMatch(u);
  }

  lemma {:induction false} SubSkip(s: string, t: string)
    requires '\\' !in s
    ensures Sub(s + t) == s + Sub(t)
  {
    if s == "" {
      assert s + t == t && s + Sub(t) == Sub(t);
    } else {
      var head, rest := [s[0]], s[1..];
      assert s == head + rest;
      SubSkip(rest, t);
      SubChar(s[0], rest + t);
      Reassociate(head, rest, t);
      Reassociate(head, rest, Sub(t));
    }
  }

  /** A document may be followed by nothing or by a closing brace. */
  predicate Closed(tail: string) { tail == "" || tail[0] == '}' }

  lemma StillNoFrac(s: string, tail: string)
    requires Closed(tail)
    ensures "frac{" <= s + tail ==> "frac{" <= s
  {
    if "frac{" <= s + tail {
      assert forall k :: 0 <= k < 5 ==> (s + tail)[k] == "frac{"[k];
      assert tail != "" ==> (s + tail)[|s|] == tail[0];
      assert |s| >= 5;
      assert s[..5] == (s + tail)[..5];
    }
  }

  lemma PushTail(n: string, e: string, r: string, tail: string)
    ensures (FRAC + (n + ("}{" + (e + ("}" + r))))) + tail == FRAC + (n + ("}{" + (e + ("}" + (r + tail)))))
  {
    Reassociate("}", r, tail);
    Reassociate(e, "}" + r, tail);
    Reassociate("}{", e + ("}" + r), tail);
    Reassociate(n, "}{" + (e + ("}" + r)), tail);
    Reassociate(FRAC, n + ("}{" + (e + ("}" + r))), tail);
  }

  lemma {:induction false} SubRender(d: Doc, tail: string)
    requires WellFormed(d) && Closed(tail)
    ensures Sub(Render(d) + tail) == Render(Pass(d)) + Sub(tail)
    decreases d, 1
  {
    match d
    case End =>
      assert "" + tail == tail && "" + Sub(tail) == Sub(tail);
    case Text(c, r) =>
      SubRender(r, tail);
      StillNoFrac(Render(r), tail);
      SubChar(c, Render(r) + tail);
      Reassociate([c], Render(r), tail);
      Reassociate([c], Render(Pass(r)), Sub(tail));
    case Group(b, r) => SubGroup(d, tail);
    case Frac(n, e, r) =>
      if Flat(n) && Flat(e) {
        SubReady(d, tail);
      } else {
        SubInner(d, tail);
      }
  }

  lemma SubGroup(d: Doc, tail: string)
    requires WellFormed(d) && Closed(tail) && d.Group?
    ensures Sub(Render(d) + tail) == Render(Pass(d)) + Sub(tail)
    decreases d, 0
  {
    var close := "}" + (Render(d.rest) + tail);
    PushGroup(Render(d.body), Render(d.rest), tail);
    SubSkip("{", Render(d.body) + close);
    SubRender(d.body, close);
    SubSkip("}", Render(d.rest) + tail);
    SubRender(d.rest, tail);
    PushGroup(Render(Pass(d.body)), Render(Pass(d.rest)), Sub(tail));
  }

  lemma PushGroup(b: string, r: string, tail: string)
    ensures ("{" + (b + ("}" + r))) + tail == "{" + (b + ("}" + (r + tail)))
  {
    Reassociate("}", r, tail);
    Reassociate(b, "}" + r, tail);
    Reassociate("{", b + ("}" + r), tail);
  }

  lemma SubReady(d: Doc, tail: string)
    requires WellFormed(d) && Closed(tail) && d.Frac? && Flat(d.num) && Flat(d.den)
    ensures Sub(Render(d) + tail) == Render(Pass(d)) + Sub(tail)
    decreases d, 0
  {
    PushTail(Render(d.num), Render(d.den), Render(d.rest), tail);
    MatchRender(d.num, d.den, Render(d.rest) + tail);
    SubRender(d.rest, tail);
    var infix := Infix(Render(d.num), Render(d.den));
    RenderLift(infix, Pass(d.rest));
    Reassociate(infix, Render(Pass(d.rest)), Sub(tail));
  }

  lemma SubInner(d: Doc, tail: string)
    requires WellFormed(d) && Closed(tail) && d.Frac? && !(Flat(d.num) && Flat(d.den))
    ensures Sub(Render(d) + tail) == Render(Pass(d)) + Sub(tail)
    decreases d, 0
  {
    PushTail(Render(d.num), Render(d.den), Render(d.rest), tail);
    MatchRender(d.num, d.den, Render(d.rest) + tail);
    var close := "}" + (Render(d.rest) + tail);
    var middle := "}{" + (Render(d.den) + close);
    SubUnmatched(Render(d.num) + middle);
    SubRender(d.num, middle);
    SubSkip("}{", Render(d.den) + close);
    SubRender(d.den, close);
    SubSkip("}", Render(d.rest) + tail);
    SubRender(d.rest, tail);
    PushTail(Render(Pass(d.num)), Render(Pass(d.den)), Render(Pass(d.rest)), Sub(tail));
  }

  lemma SubUnmatched(t: string)
    requires Match(FRAC + t).None?
    ensures Sub(FRAC + t) == FRAC + Sub(t)
  {
    var u := FRAC + t;
    assert u[0] == '\\' && u[1..] == "frac{" + t;
    SubSkip("frac{", t);
    assert FRAC == ['\\'] + "frac{";
    Reassociate(['\\'], "frac{", Sub(t));
  }

  // ---- the fixpoint ----

  /** No fraction is ready to be rewritten. */
  predicate Done(d: Doc) {
    match d
    case End => true
    case Text(_, r) => Done(r)
    case Group(b, r) => Done(b) && Done(r)
    case Frac(n, e, r) => !(Flat(n) && Flat(e)) && Done(n) && Done(e) && Done(r)
  }

  /** The tree's braces: two for a group, four for a fraction. */
  function Weight(d: Doc): nat {
    match d
    case End => 0
    case Text(_, r) => Weight(r)
    case Group(b, r) => 2 + Weight(b) + Weight(r)
    case Frac(n, e, r) => 4 + Weight(n) + Weight(e) + Weight(r)
  }

  lemma {:induction false} LiftFacts(s: string, d: Doc)
    ensures Weight(Lift(s, d)) == Weight(d)
    ensures Settle(Lift(s, d)) == Lift(s, Settle(d))
    ensures Flat(Lift(s, d)) == Flat(d)
  {
    if s != "" {
      LiftFacts(s[1..], d);
    }
  }

  lemma {:induction false} FlatSettled(d: Doc)
    requires Flat(d)
    ensures Settle(d) == d && Weight(d) == 0 && Done(d)
  {
    if d.Text? {
      FlatSettled(d.rest);
    }
  }

  lemma {:induction false} PassKeepsMeaning(d: Doc)
    ensures Settle(Pass(d)) == Settle(d)
  {
    match d
    case End =>
    case Text(_, r) => PassKeepsMeaning(r);
    case Group(b, r) =>
      PassKeepsMeaning(b);
      PassKeepsMeaning(r);
    case Frac(n, e, r) =>
      PassKeepsMeaning(r);
      if Flat(n) && Flat(e) {
        FlatSettled(n);
        FlatSettled(e);
        LiftFacts(Infix(Render(n), Render(e)), Pass(r));
      } else {
        PassKeepsMeaning(n);
        PassKeepsMeaning(e);
      }
  }

  lemma {:induction false} DoneOrLighter(d: Doc)
    ensures Done(d) ==> Pass(d) == d && Settle(d) == d
    ensures Weight(Pass(d)) <= Weight(d)
    ensures !Done(d) ==> Weight(Pass(d)) < Weight(d)
  {
    match d
    case End =>
    case Text(_, r) => DoneOrLighter(r);
    case Group(b, r) =>
      DoneOrLighter(b);
      DoneOrLighter(r);
    case Frac(n, e, r) =>
      DoneOrLighter(n);
      DoneOrLighter(e);
      DoneOrLighter(r);
      if Flat(n) && Flat(e) {
        LiftFacts(Infix(Render(n), Render(e)), Pass(r));
      }
  }

  lemma {:induction false} BracesRender(d: Doc)
    requires WellFormed(d)
    ensures Braces(Render(d)) == Weight(d)
  {
    LiteralBraces();
    match d
    case End =>
    case Text(c, r) =>
      BracesRender(r);
      assert Render(d)[1..] == Render(r);
    case Group(b, r) =>
      BracesRender(b);
      BracesRender(r);
      BracesConcat("}", Render(r));
      BracesConcat(Render(b), "}" + Render(r));
      BracesConcat("{", Render(b) + ("}" + Render(r)));
    case Frac(n, e, r) =>
      BracesRender(n);
      BracesRender(e);
      BracesRender(r);
      BracesConcat("}", Render(r));
      BracesConcat(Render(e), "}" + Render(r));
      BracesConcat("}{", Render(e) + ("}" + Render(r)));
      BracesConcat(Render(n), "}{" + (Render(e) + ("}" + Render(r))));
      BracesConcat(FRAC, Render(n) + ("}{" + (Render(e) + ("}" + Render(r)))));
  }

  // ---- a pass keeps the tree well formed ----

  lemma {:induction false} FlatPlain(d: Doc)
    requires WellFormed(d) && Flat(d)
    ensures forall i :: 0 <= i < |Render(d)| ==> !Brace(Render(d)[i])
  {
    if d.Text? {
      FlatPlain(d.rest);
      assert forall i :: 0 < i < |Render(d)| ==> Render(d)[i] == Render(d.rest)[i - 1];
    }
  }

  /** Text that ends in a parenthesis cannot begin a fraction name, whatever follows. */
  lemma NoFracAcross(s: string, u: string)
    requires s != "" && s[|s| - 1] == ')' && forall i :: 0 <= i < |s| ==> !Brace(s[i])
    ensures !("frac{" <= s + u)
  {
    var k := if |s| <= 5 then |s| - 1 else 4;
    assert (s + u)[k] == s[k] != "frac{"[k];
  }

  lemma {:induction false} LiftWellFormed(s: string, d: Doc)
    requires WellFormed(d) && s != "" && s[|s| - 1] == ')' && forall i :: 0 <= i < |s| ==> !Brace(s[i])
    ensures WellFormed(Lift(s, d))
  {
    var rest := s[1..];
    if rest == "" {
      assert Lift(s, d) == Text(')', d);
    } else {
      LiftWellFormed(rest, d);
      RenderLift(rest, d);
      NoFracAcross(rest, Render(d));
    }
  }

  lemma InfixPlain(n: Doc, e: Doc)
    requires WellFormed(n) && Flat(n) && WellFormed(e) && Flat(e)
    ensures var s := Infix(Render(n), Render(e));
      s != "" && s[|s| - 1] == ')' && forall i :: 0 <= i < |s| ==> !Brace(s[i])
  {
    FlatPlain(n);
    FlatPlain(e);
  }

  /** A pass cannot bring a fraction name together: what it writes starts with a parenthesis. */
  lemma {:induction false} PassSpellsNothing(d: Doc, i: nat)
    requires WellFormed(d) && i < 5 && "frac{"[i..] <= Render(Pass(d))
    ensures "frac{"[i..] <= Render(d)
    decreases 5 - i
  {
    var p := "frac{"[i..];
    var r := Render(Pass(d));
    assert r[..|p|] == p && r[0] == p[0] == "frac{"[i];
    match d
    case End =>
    case Group(b, rest) => assert p == "{";
    case Frac(n, e, rest) =>
      if Flat(n) && Flat(e) {
        RenderLift(Infix(Render(n), Render(e)), Pass(rest));
        assert r[0] == '(';
      }
    case Text(c, rest) =>
      assert i < 4;
      assert p[1..] == "frac{"[i + 1..] && r[1..] == Render(Pass(rest));
      assert r[..|p|][1..] == r[1..][..|p| - 1];
      PassSpellsNothing(rest, i + 1);
      assert p == [c] + p[1..];
  }

  lemma {:induction false} PassWellFormed(d: Doc)
    requires WellFormed(d)
    ensures WellFormed(Pass(d))
  {
    match d
    case End =>
    case Text(c, r) =>
      PassWellFormed(r);
      if "frac{" <= Render(Pass(r)) {
        assert "frac{"[0..] == "frac{";
        PassSpellsNothing(r, 0);
      }
    case Group(b, r) =>
      PassWellFormed(b);
      PassWellFormed(r);
    case Frac(n, e, r) =>
      PassWellFormed(r);
      if Flat(n) && Flat(e) {
        InfixPlain(n, e);
        LiftWellFormed(Infix(Render(n), Render(e)), Pass(r));
      } else {
        PassWellFormed(n);
        PassWellFormed(e);
      }
  }

  lemma OnePass(d: Doc)
    requires WellFormed(d)
    ensures Sub(Render(d)) == Render(Pass(d))
  {
    SubRender(d, "");
    assert Render(d) + "" == Render(d) && Render(Pass(d)) + Sub("") == Render(Pass(d));
  }

  /** Main result. On balanced text the loop computes the structural recursion. */
  lemma {:induction false} LoopSettles(d: Doc)
    requires WellFormed(d)
    ensures Fix(Render(d)) == Render(Settle(d))
    decreases Weight(d)
  {
    OnePass(d);
    DoneOrLighter(d);
    BracesRender(d);
    PassWellFormed(d);
    BracesRender(Pass(d));
    if !Done(d) {
      PassKeepsMeaning(d);
      LoopSettles(Pass(d));
    }
  }

  // ---- when every brace, and when every fraction, disappears ----

  predicate NoGroups(d: Doc) {
    match d
    case End => true
    case Text(_, r) => NoGroups(r)
    case Group(_, _) => false
    case Frac(n, e, r) => NoGroups(n) && NoGroups(e) && NoGroups(r)
  }

  /** The infix text of a document of nested fractions: numerator, bar, denominator, each part in parentheses. */
  function InfixText(d: Doc): string
    requires NoGroups(d)
  {
    match d
    case End => ""
    case Text(c, r) => [c] + InfixText(r)
    case Frac(n, e, r) => "(" + InfixText(n) + ")/(" + InfixText(e) + ")" + InfixText(r)
  }

  lemma {:induction false} FlatIff(d: Doc)
    ensures Flat(Settle(d)) <==> NoGroups(d)
    ensures NoGroups(d) ==> Render(Settle(d)) == InfixText(d)
  {
    match d
    case End =>
    case Text(_, r) => FlatIff(r);
    case Group(_, _) =>
    case Frac(n, e, r) =>
      FlatIff(n);
      FlatIff(e);
      FlatIff(r);
      if NoGroups(n) && NoGroups(e) {
        LiftFacts(Infix(Render(Settle(n)), Render(Settle(e))), Settle(r));
        RenderLift(Infix(Render(Settle(n)), Render(Settle(e))), Settle(r));
      }
  }

  lemma {:induction false} SettleWellFormed(d: Doc)
    requires WellFormed(d)
    ensures WellFormed(Settle(d))
    decreases Weight(d)
  {
    DoneOrLighter(d);
    if !Done(d) {
      PassWellFormed(d);
      PassKeepsMeaning(d);
      SettleWellFormed(Pass(d));
    }
  }

  /** The loop leaves no brace behind exactly when nothing but fractions is braced;
      the result is then the infix text. */
  lemma BracesGoneIff(d: Doc)
    requires WellFormed(d)
    ensures Braces(Fix(Render(d))) == 0 <==> NoGroups(d)
    ensures NoGroups(d) ==> Fix(Render(d)) == InfixText(d)
  {
    LoopSettles(d);
    FlatIff(d);
    SettleWellFormed(d);
    BracesRender(Settle(d));
    WeightlessIsFlat(Settle(d));
  }

  lemma {:induction false} WeightlessIsFlat(d: Doc)
    ensures Weight(d) == 0 <==> Flat(d)
  {
    if d.Text? {
      WeightlessIsFlat(d.rest);
    }
  }

  /** Nothing inside a fraction is braced but fractions; outside of them anything may be. */
  predicate PlainParts(d: Doc) {
    match d
    case End => true
    case Text(_, r) => PlainParts(r)
    case Group(b, r) => PlainParts(b) && PlainParts(r)
    case Frac(n, e, r) => NoGroups(n) && NoGroups(e) && PlainParts(r)
  }

  /** `\frac{` occurs in the text. */
  predicate Spells(t: string) { t != "" && (FRAC <= t || Spells(t[1..])) }

  predicate HasFrac(d: Doc) {
    match d
    case End => false
    case Text(_, r) => HasFrac(r)
    case Group(b, r) => HasFrac(b) || HasFrac(r)
    case Frac(_, _, _) => true
  }

  lemma SpellsNext(c: char, t: string)
    requires c == '\\' ==> !("frac{" <= t)
    ensures Spells([c] + t) <==> Spells(t)
  {
    FracStart([c] + t);
    assert ([c] + t)[1..] == t;
  }

  /** The text spells out exactly the fractions of its tree. */
  lemma {:induction false} SpellsRender(d: Doc, tail: string)
    requires WellFormed(d) && Closed(tail)
    ensures Spells(Render(d) + tail) <==> HasFrac(d) || Spells(tail)
  {
    match d
    case End => assert Render(d) + tail == tail;
    case Text(c, r) =>
      StillNoFrac(Render(r), tail);
      Reassociate([c], Render(r), tail);
      SpellsNext(c, Render(r) + tail);
      SpellsRender(r, tail);
    case Group(b, r) =>
      PushGroup(Render(b), Render(r), tail);
      var close := "}" + (Render(r) + tail);
      SpellsNext('{', Render(b) + close);
      SpellsRender(b, close);
      SpellsNext('}', Render(r) + tail);
      SpellsRender(r, tail);
    case Frac(n, e, r) => PushTail(Render(n), Render(e), Render(r), tail);
  }

  lemma {:induction false} LiftHasFrac(s: string, d: Doc)
    ensures HasFrac(Lift(s, d)) == HasFrac(d)
  {
    if s != "" {
      LiftHasFrac(s[1..], d);
    }
  }

  /** A fraction stays in the settled tree exactly when one of its parts holds a braced group. */
  lemma {:induction false} SettledFracs(d: Doc)
    ensures HasFrac(Settle(d)) <==> !PlainParts(d)
  {
    match d
    case End =>
    case Text(_, r) => SettledFracs(r);
    case Group(b, r) =>
      SettledFracs(b);
      SettledFracs(r);
    case Frac(n, e, r) =>
      FlatIff(n);
      FlatIff(e);
      SettledFracs(r);
      if NoGroups(n) && NoGroups(e) {
        LiftHasFrac(Infix(Render(Settle(n)), Render(Settle(e))), Settle(r));
      }
  }

  /** Main result. The loop rewrites every fraction exactly when no part of one holds a braced group. */
  lemma FractionsGoneIff(d: Doc)
    requires WellFormed(d)
    ensures !Spells(Fix(Render(d))) <==> PlainParts(d)
  {
    LoopSettles(d);
    SettleWellFormed(d);
    SpellsRender(Settle(d), "");
    assert Render(Settle(d)) + "" == Render(Settle(d));
    SettledFracs(d);
  }

  /** One fraction between plain texts comes out with its numerator first. */
  lemma OneFraction(a: string, num: string, den: string, b: string)
    requires '\\' !in a && '\\' !in num && '\\' !in den && '\\' !in b
    requires Braces(num) == 0 && Braces(den) == 0
    ensures Fix(a + ("\\frac{" + num + "}{" + den + "}" + b)) == a + ("(" + num + ")/(" + den + ")" + b)
  {
    var out := "(" + num + ")/(" + den + ")" + b;
    FracMatches(num, den, b);
    PlainStays(b);
    SubSkip(a, FRAC + num + "}{" + den + "}" + b);
    NoBackslash(a, num, den, b);
    PlainStays(a + out);
    FixOnce(a + (FRAC + num + "}{" + den + "}" + b));
  }

  lemma FixOnce(t: string)
    requires Sub(Sub(t)) == Sub(t)
    ensures Fix(t) == Sub(t)
  {
  }

  lemma NoBackslash(a: string, num: string, den: string, b: string)
    requires '\\' !in a && '\\' !in num && '\\' !in den && '\\' !in b
    ensures '\\' !in a + ("(" + num + ")/(" + den + ")" + b)
  {
  }

  lemma PlainStays(t: string)
    requires '\\' !in t
    ensures Sub(t) == t
  {
    SubSkip(t, "");
    assert t + "" == t && t + Sub("") == t;
  }

  lemma FracMatches(num: string, den: string, rest: string)
    requires Braces(num) == 0 && Braces(den) == 0
    ensures Sub(FRAC + num + "}{" + den + "}" + rest) == "(" + num + ")/(" + den + ")" + Sub(rest)
  {
    var t := FRAC + num + "}{" + den + "}" + rest;
    var inner := "{" + (den + ("}" + rest));
    AssembleBack(num, den, rest);
    MatchParts(num + ("}" + inner));
    PlainBody(num, inner);
    PlainBody(den, rest);
    assert inner[1..] == den + ("}" + rest);
    assert Match(t) == Some((num, den, rest));
  }

  lemma AssembleBack(num: string, den: string, rest: string)
    ensures FRAC + num + "}{" + den + "}" + rest == FRAC + (num + ("}" + ("{" + (den + ("}" + rest)))))
  {
    Assemble(FRAC + (num + ("}{" + (den + ("}" + rest)))), FRAC, num, den, rest);
    Brackets("{" + (den + ("}" + rest)), den + ("}" + rest));
  }

  lemma PlainBody(s: string, u: string)
    requires Braces(s) == 0
    ensures Body(s + ("}" + u)) == Some((s, u))
  {
    RunNoBraces(s);
    RunSkip(s, "}" + u);
    var t := s + ("}" + u);
    assert t[..|s|] == s && t[|s| + 1..] == u;
  }

  /** A fraction with a braced group in its numerator stays as it is, whatever plain text follows. */
  lemma BracedNumeratorStays(s: string, rest: string)
    requires Run(s) == |s| && '\\' !in s && '\\' !in rest
    ensures var t := FRAC + (s + ("{" + rest)); Fix(t) == t && Spells(t)
  {
    var body := s + ("{" + rest);
    RunSkip(s, "{" + rest);
    MatchParts(body);
    SubUnmatched(body);
    SubSkip(body, "");
    assert body + "" == body && body + Sub("") == body;
  }

  /** For instance `\frac{x^{2}}{3}`. */
  lemma BracedExponentStays()
    ensures var t := FRAC + ("x^" + ("{" + "2}}{3}")); Fix(t) == t && Spells(t)
  {
    assert "x^"[1..] == "^" && "^"[1..] == "";
    assert Run("^") == 1 && Run("x^") == 2;
    BracedNumeratorStays("x^", "2}}{3}");
  }
}
