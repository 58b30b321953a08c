/** Placeholder rendering: one pass of ReplaceAll per variable, in whatever order the map yields them.
    The order never matters, and the result is the simultaneous substitution of every placeholder, exactly
    when no variable's value can take part in another variable's placeholder; provided the keys are such
    that a template says which placeholders it has, as keys without braces are. */
module Rendering {
  /** Leftmost, non-overlapping replacement of a non-empty pattern. */
  function ReplaceAll(s: string, pattern: string, value: string): string
    requires pattern != ""
    decreases |s|
  {
    if |s| < |pattern| then s
    else if pattern <= s then value + ReplaceAll(s[|pattern|..], pattern, value)
    else [s[0]] + ReplaceAll(s[1..], pattern, value)
  }

  function Token(key: string): string {
    "{{" + key + "}}"
  }

  /** One pass per variable, in the order given. */
  function RenderIn(body: string, order: seq<string>, vars: map<string, string>): string
    requires forall k :: k in order ==> k in vars
    decreases |order|
  {
    if order == [] then body
    else RenderIn(ReplaceAll(body, Token(order[0]), vars[order[0]]), order[1..], vars)
  }

  ghost predicate Enumerates(order: seq<string>, keys: set<string>) {
    && (forall k :: k in order <==> k in keys)
    && forall i, j :: 0 <= i < j < |order| ==> order[i] != order[j]
  }

  // ---- well-formed templates ----

  datatype Part = Text(text: string) | Hole(key: string)

  function PrintPart(p: Part): string {
    match p
    case Text(text) => text
    case Hole(key) => Token(key)
  }

  function Print(parts: seq<Part>): string {
    if parts == [] then "" else PrintPart(parts[0]) + Print(parts[1..])
  }

  predicate BraceFree(s: string) {
    '{' !in s && '}' !in s
  }

  /** Neither contains nor can begin a placeholder: no "{{" inside, and no '{' at the end. */
  predicate Plain(s: string) {
    (forall i :: 0 <= i < |s| - 1 ==> !(s[i] == '{' && s[i + 1] == '{')) && (s != "" ==> s[|s| - 1] != '{')
  }

  predicate PartOk(p: Part) {
    match p
    case Text(text) => Plain(text)
    case Hole(key) => BraceFree(key)
  }

  predicate WellFormed(parts: seq<Part>) {
    forall i :: 0 <= i < |parts| ==> PartOk(parts[i])
  }

  /** A placeholder of the key begins here, though it may end after the text. */
  predicate Begins(text: string, i: nat, key: string)
    requires i <= |text|
  {
    Token(key) <= text[i..] || text[i..] <= Token(key)
  }

  predicate Inert(text: string, key: string) {
    forall i :: 0 <= i < |text| ==> !Begins(text, i, key)
  }

  /** A pass that replaces a placeholder by itself changes nothing. */
  predicate Fixed(key: string, vars: map<string, string>)
    requires key in vars
  {
    vars[key] == Token(key)
  }

  /** No value can take part in the placeholder of another variable. */
  predicate Separate(vars: map<string, string>) {
    forall a, b :: a in vars && b in vars && a != b ==> Fixed(b, vars) || Inert(vars[a], b)
  }

  /** A pass for this key finds its own holes and nothing else. */
  predicate Clear(parts: seq<Part>, key: string) {
    forall p :: p in parts ==> p == Hole(key) || Inert(PrintPart(p), key)
  }

  /** The template has the placeholders of these variables where its holes are, and nowhere else. */
  predicate Readable(parts: seq<Part>, keys: set<string>) {
    forall k :: k in keys ==> Clear(parts, k)
  }

  /** The placeholders of these variables cannot overlap. */
  predicate Apart(keys: set<string>) {
    forall a, b, i :: a in keys && b in keys && 0 <= i < |Token(a)| && Begins(Token(a), i, b) ==> a == b && i == 0
  }

  /** All placeholders at once; unknown keys stay. */
  function SubstitutePart(p: Part, vars: map<string, string>): Part {
    if p.Hole? && p.key in vars then Text(vars[p.key]) else p
  }

  function Substitute(parts: seq<Part>, vars: map<string, string>): (r: seq<Part>)
    ensures |r| == |parts|
  {
    seq(|parts|, i requires 0 <= i < |parts| => SubstitutePart(parts[i], vars))
  }

  // ---- one pass ----

  lemma PlainIsInert(text: string, key: string)
    requires Plain(text)
    ensures Inert(text, key)
  {
    forall i | 0 <= i < |text| ensures !Begins(text, i, key) {
      assert Token(key)[0] == '{' && Token(key)[1] == '{';
      assert text[i..][0] == text[i];
      if i + 1 < |text| {
        assert text[i..][1] == text[i + 1];
      }
    }
  }

  /** Where the pattern does not begin, one character is copied. */
  lemma OneCopied(s: string, pattern: string, value: string)
    requires s != "" && pattern != "" && !(pattern <= s)
    ensures ReplaceAll(s, pattern, value) == [s[0]] + ReplaceAll(s[1..], pattern, value)
  {
    if |s| < |pattern| {
      assert ReplaceAll(s[1..], pattern, value) == s[1..];
    }
  }

  lemma InertTail(text: string, key: string)
    requires text != "" && Inert(text, key)
    ensures Inert(text[1..], key)
  {
    forall i | 0 <= i < |text[1..]| ensures !Begins(text[1..], i, key) {
      assert !Begins(text, i + 1, key);
      assert text[1..][i..] == text[i + 1..];
    }
  }

  lemma {:induction false} InertSkipped(text: string, rest: string, key: string, value: string)
    requires Inert(text, key)
    ensures ReplaceAll(text + rest, Token(key), value) == text + ReplaceAll(rest, Token(key), value)
  {
    if text == "" {
      assert text + rest == rest;
    } else {
      var tail, done := text[1..], ReplaceAll(rest, Token(key), value);
      NoMatch(text, rest, key);
      OneCopied(text + rest, Token(key), value);
      InertTail(text, key);
      InertSkipped(tail, rest, key, value);
      assert (text + rest)[1..] == tail + rest;
      assert [text[0]] + (tail + done) == text + done;
    }
  }

  lemma NoMatch(text: string, rest: string, key: string)
    requires text != "" && Inert(text, key)
    ensures !(Token(key) <= text + rest)
  {
    var s, pattern := text + rest, Token(key);
    assert text[0..] == text && !Begins(text, 0, key);
    if |pattern| <= |text| {
      var m :| 0 <= m < |pattern| && pattern[m] != text[m];
      assert s[m] == text[m];
    } else {
      var m :| 0 <= m < |text| && pattern[m] != text[m];
      assert s[m] == text[m];
    }
  }

  lemma TokenReplaced(rest: string, key: string, value: string)
    ensures ReplaceAll(Token(key) + rest, Token(key), value) == value + ReplaceAll(rest, Token(key), value)
  {
    var s := Token(key) + rest;
    assert s[..|Token(key)|] == Token(key) && s[|Token(key)|..] == rest;
  }

  /** A token is a prefix only of itself. */
  lemma TokensDiffer(j: string, key: string, rest: string)
    requires BraceFree(j) && BraceFree(key) && j != key
    ensures !(Token(key) <= Token(j) + rest)
  {
    var s, t := Token(j) + rest, Token(key);
    assert forall i :: 0 <= i < |key| ==> t[i + 2] == key[i];
    assert forall i :: 0 <= i < |j| ==> s[i + 2] == j[i];
    assert t[|key| + 2] == '}' && s[|j| + 2] == '}';
    if m :| 0 <= m < |j| && m < |key| && j[m] != key[m] {
      assert s[m + 2] != t[m + 2];
    } else if |key| < |j| {
      assert s[|key| + 2] == j[|key|] != '}';
    } else if |j| < |key| {
      assert t[|j| + 2] == key[|j|] != '}';
    }
  }

  /** A pass fills exactly the holes of its key. */
  lemma {:induction false} PassFills(parts: seq<Part>, key: string, value: string)
    requires Clear(parts, key)
    ensures ReplaceAll(Print(parts), Token(key), value) == Print(Substitute(parts, map[key := value]))
  {
    if parts != [] {
      var rest := parts[1..];
      PassFills(rest, key, value);
      assert Substitute(parts, map[key := value])[1..] == Substitute(rest, map[key := value]);
      if parts[0] == Hole(key) {
        TokenReplaced(Print(rest), key, value);
      } else {
        assert parts[0] in parts;
        InertSkipped(PrintPart(parts[0]), Print(rest), key, value);
      }
    }
  }

  lemma {:induction false} FixedPass(s: string, pattern: string)
    requires pattern != ""
    ensures ReplaceAll(s, pattern, pattern) == s
    decreases |s|
  {
    if |s| < |pattern| {
    } else if pattern <= s {
      FixedPass(s[|pattern|..], pattern);
    } else {
      FixedPass(s[1..], pattern);
    }
  }

  // ---- all passes ----

  function Restrict(vars: map<string, string>, order: seq<string>): map<string, string>
    requires forall k :: k in order ==> k in vars
  {
    map k | k in order :: vars[k]
  }

  lemma SubstituteTwice(parts: seq<Part>, order: seq<string>, vars: map<string, string>)
    requires order != [] && forall k :: k in order ==> k in vars
    ensures var k, rest := order[0], order[1..];
      Substitute(Substitute(parts, map[k := vars[k]]), Restrict(vars, rest)) == Substitute(parts, Restrict(vars, order))
  {
    assert forall j :: j in order <==> j == order[0] || j in order[1..];
  }

  lemma {:induction false} SamePrint(ps: seq<Part>, qs: seq<Part>)
    requires |ps| == |qs| && forall i :: 0 <= i < |ps| ==> PrintPart(ps[i]) == PrintPart(qs[i])
    ensures Print(ps) == Print(qs)
  {
    if ps != [] {
      SamePrint(ps[1..], qs[1..]);
    }
  }

  lemma SubstituteFixed(parts: seq<Part>, order: seq<string>, vars: map<string, string>)
    requires order != [] && (forall k :: k in order ==> k in vars) && Fixed(order[0], vars)
    ensures Print(Substitute(parts, Restrict(vars, order))) == Print(Substitute(parts, Restrict(vars, order[1..])))
  {
    assert forall j :: j in order <==> j == order[0] || j in order[1..];
    SamePrint(Substitute(parts, Restrict(vars, order)), Substitute(parts, Restrict(vars, order[1..])));
  }

  predicate NoRepeats(order: seq<string>) {
    forall i, j :: 0 <= i < j < |order| ==> order[i] != order[j]
  }

  /** Every key that is still to come is fixed or finds the texts clear. */
  predicate AllClear(parts: seq<Part>, order: seq<string>, vars: map<string, string>) {
    forall k :: k in order ==> k in vars && (Fixed(k, vars) || Clear(parts, k))
  }

  lemma StillClear(parts: seq<Part>, order: seq<string>, vars: map<string, string>)
    requires order != [] && NoRepeats(order) && Separate(vars) && AllClear(parts, order, vars)
    ensures AllClear(Substitute(parts, map[order[0] := vars[order[0]]]), order[1..], vars)
  {
    var k, rest := order[0], order[1..];
    var filled := Substitute(parts, map[k := vars[k]]);
    forall b | b in rest ensures b in vars && (Fixed(b, vars) || Clear(filled, b)) {
      assert b in order && b != k;
      if !Fixed(b, vars) {
        forall p | p in filled ensures p == Hole(b) || Inert(PrintPart(p), b) {
          var i :| 0 <= i < |filled| && p == filled[i];
          assert parts[i] in parts;
        }
      }
    }
  }

  lemma {:induction false} PassesFill(parts: seq<Part>, order: seq<string>, vars: map<string, string>)
    requires NoRepeats(order) && Separate(vars) && AllClear(parts, order, vars)
    ensures RenderIn(Print(parts), order, vars) == Print(Substitute(parts, Restrict(vars, order)))
    decreases |order|
  {
    if order == [] {
      assert Substitute(parts, Restrict(vars, order)) == parts;
    } else if Fixed(order[0], vars) {
      FixedPass(Print(parts), Token(order[0]));
      PassesFill(parts, order[1..], vars);
      SubstituteFixed(parts, order, vars);
    } else {
      var k := order[0];
      PassFills(parts, k, vars[k]);
      StillClear(parts, order, vars);
      PassesFill(Substitute(parts, map[k := vars[k]]), order[1..], vars);
      SubstituteTwice(parts, order, vars);
    }
  }

  /** Every order in which the map may yield its variables renders every readable template alike. */
  ghost predicate OrderFree(vars: map<string, string>) {
    forall parts, o, p :: Readable(parts, vars.Keys) && Enumerates(o, vars.Keys) && Enumerates(p, vars.Keys) ==>
      RenderIn(Print(parts), o, vars) == RenderIn(Print(parts), p, vars)
  }

  /** And as the simultaneous substitution of all variables, unknown keys staying as they are. */
  ghost predicate Simultaneous(vars: map<string, string>) {
    forall parts, o :: Readable(parts, vars.Keys) && Enumerates(o, vars.Keys) ==>
      RenderIn(Print(parts), o, vars) == Print(Substitute(parts, vars))
  }

  /** Whatever the keys and the order of the variables, the result is the simultaneous substitution of all
      of them. */
  lemma OrderIrrelevant(parts: seq<Part>, order: seq<string>, vars: map<string, string>)
    requires Readable(parts, vars.Keys) && Separate(vars) && Enumerates(order, vars.Keys)
    ensures RenderIn(Print(parts), order, vars) == Print(Substitute(parts, vars))
  {
    PassesFill(parts, order, vars);
    assert Restrict(vars, order) == vars;
  }

  // ---- and only then ----

  lemma {:induction false} Growth(s: string, pattern: string, value: string)
    requires pattern != ""
    ensures |value| >= |pattern| ==> |ReplaceAll(s, pattern, value)| >= |s|
    ensures |value| <= |pattern| ==> |ReplaceAll(s, pattern, value)| <= |s|
    decreases |s|
  {
    if |s| < |pattern| {
    } else if pattern <= s {
      Growth(s[|pattern|..], pattern, value);
    } else {
      Growth(s[1..], pattern, value);
    }
  }

  /** Replacing a pattern that occurs by something else changes the string. */
  lemma {:induction false} Replaced(s: string, i: nat, pattern: string, value: string)
    requires pattern != "" && value != pattern && i <= |s| && pattern <= s[i..]
    ensures ReplaceAll(s, pattern, value) != s
    decreases |s|
  {
    if pattern <= s {
      var rest := s[|pattern|..];
      Growth(rest, pattern, value);
      var r := value + ReplaceAll(rest, pattern, value);
      if |value| == |pattern| {
        assert r[..|pattern|] == value && s[..|pattern|] == pattern;
      }
    } else {
      assert i > 0 && s[1..][i - 1..] == s[i..];
      Replaced(s[1..], i - 1, pattern, value);
      assert ReplaceAll(s, pattern, value) == [s[0]] + ReplaceAll(s[1..], pattern, value);
      assert s == [s[0]] + s[1..];
    }
  }

  /** What a template puts after a value that ends like this, to complete the placeholder of b. */
  function Trap(ending: string, b: string): seq<Part> {
    if |ending| < |Token(b)| then [Text(Token(b)[|ending|..])] else []
  }

  lemma PrintText(text: string)
    ensures Print([Text(text)]) == text
  {
    assert [Text(text)][1..] == [];
  }

  lemma TailInert(b: string, n: nat, key: string, keys: set<string>)
    requires Apart(keys) && b in keys && key in keys && 1 <= n < |Token(b)|
    ensures Inert(Token(b)[n..], key)
  {
    var tail := Token(b)[n..];
    forall i | 0 <= i < |tail| ensures !Begins(tail, i, key) {
      assert tail[i..] == Token(b)[n + i..];
      assert !Begins(Token(b), n + i, key);
    }
  }

  lemma TrapReadable(a: string, ending: string, b: string, keys: set<string>)
    requires Apart(keys) && a in keys && b in keys && ending != "" && (Token(b) <= ending || ending <= Token(b))
    ensures Readable([Hole(a)] + Trap(ending, b), keys) && Token(b) <= ending + Print(Trap(ending, b))
  {
    if |ending| < |Token(b)| {
      PrintText(Token(b)[|ending|..]);
    }
    var parts := [Hole(a)] + Trap(ending, b);
    forall k, p | k in keys && p in parts ensures p == Hole(k) || Inert(PrintPart(p), k) {
      if p == Hole(a) {
        assert k != a ==> forall i :: 0 <= i < |Token(a)| ==> !Begins(Token(a), i, k);
      } else {
        TailInert(b, |ending|, k, keys);
      }
    }
  }

  lemma {:induction false} RenderAppend(body: string, o: seq<string>, p: seq<string>, vars: map<string, string>)
    requires forall k :: k in o + p ==> k in vars
    ensures (forall k :: k in o ==> k in vars) && (forall k :: k in p ==> k in vars)
    ensures RenderIn(body, o + p, vars) == RenderIn(RenderIn(body, o, vars), p, vars)
    decreases |o|
  {
    assert forall k :: k in o || k in p ==> k in o + p;
    if o == [] {
      assert o + p == p;
    } else {
      assert (o + p)[1..] == o[1..] + p;
      RenderAppend(ReplaceAll(body, Token(o[0]), vars[o[0]]), o[1..], p, vars);
    }
  }

  /** A trap is text behind one hole; the passes of other variables leave it alone. */
  lemma OtherPass(trap: seq<Part>, a: string, k: string, v: string)
    requires Clear([Hole(a)] + trap, k) && k != a && forall p :: p in trap ==> p.Text?
    ensures ReplaceAll(Print([Hole(a)] + trap), Token(k), v) == Print([Hole(a)] + trap)
  {
    var parts := [Hole(a)] + trap;
    PassFills(parts, k, v);
    forall i | 0 <= i < |parts| ensures SubstitutePart(parts[i], map[k := v]) == parts[i] {
      assert parts[i] == if i == 0 then Hole(a) else trap[i - 1];
      assert i > 0 ==> trap[i - 1] in trap;
    }
    assert Substitute(parts, map[k := v]) == parts;
  }

  lemma {:induction false} OthersPass(trap: seq<Part>, a: string, others: seq<string>, vars: map<string, string>)
    requires Readable([Hole(a)] + trap, vars.Keys) && forall p :: p in trap ==> p.Text?
    requires forall k :: k in others ==> k in vars && k != a
    ensures RenderIn(Print([Hole(a)] + trap), others, vars) == Print([Hole(a)] + trap)
  {
    if others != [] {
      OtherPass(trap, a, others[0], vars[others[0]]);
      OthersPass(trap, a, others[1..], vars);
    }
  }

  /** If a comes before b, the pass for a completes a placeholder of b, which the pass for b replaces;
      if b comes first, the completed placeholder stays. */
  lemma TrapSprings(vars: map<string, string>, others: seq<string>, a: string, b: string, trap: seq<Part>, i: nat)
    requires a in vars && b in vars && a != b && !Fixed(b, vars)
    requires forall k :: k in others ==> k in vars && k != a && k != b
    requires Readable([Hole(a)] + trap, vars.Keys) && forall p :: p in trap ==> p.Text?
    requires i <= |vars[a]| && Token(b) <= (vars[a] + Print(trap))[i..]
    ensures var body := Print([Hole(a)] + trap);
      RenderIn(body, others + [a, b], vars) != RenderIn(body, others + [b, a], vars)
  {
    var body := Print([Hole(a)] + trap);
    RenderAppend(body, others, [a, b], vars);
    RenderAppend(body, others, [b, a], vars);
    OthersPass(trap, a, others, vars);
    TwoPasses(body, a, b, vars);
    TwoPasses(body, b, a, vars);
    FirstPass(trap, a, vars[a]);
    OtherPass(trap, a, b, vars[b]);
    Replaced(vars[a] + Print(trap), i, Token(b), vars[b]);
  }

  lemma {:induction false} Enumeration(keys: set<string>) returns (order: seq<string>)
    ensures Enumerates(order, keys)
    decreases |keys|
  {
    if keys == {} {
      order := [];
    } else {
      var k :| k in keys;
      var rest := Enumeration(keys - {k});
      order := rest + [k];
    }
  }

  lemma LastTwo(others: seq<string>, keys: set<string>, a: string, b: string)
    requires a in keys && b in keys && a != b && Enumerates(others, keys - {a, b})
    ensures Enumerates(others + [a, b], keys)
  {
    var order := others + [a, b];
    forall i, j | 0 <= i < j < |order| ensures order[i] != order[j] {
      if j >= |others| && i < |others| {
        assert others[i] in others;
      }
    }
    forall k ensures k in order <==> k in keys {
      assert k in order <==> k in others || k in [a, b];
    }
  }

  /** A value that can take part in the placeholder of another variable: some template comes out
      differently in two of the orders in which the loop may range over the map. */
  lemma Trapped(vars: map<string, string>, a: string, b: string)
    returns (parts: seq<Part>, o: seq<string>, p: seq<string>)
    requires Apart(vars.Keys) && a in vars && b in vars && a != b && !Fixed(b, vars) && !Inert(vars[a], b)
    ensures Readable(parts, vars.Keys) && (BraceFree(a) && BraceFree(b) ==> WellFormed(parts))
    ensures Enumerates(o, vars.Keys) && Enumerates(p, vars.Keys)
    ensures RenderIn(Print(parts), o, vars) != RenderIn(Print(parts), p, vars)
  {
    var v := vars[a];
    var i :| 0 <= i < |v| && Begins(v, i, b);
    var trap := Trap(v[i..], b);
    assert v[i..] != "" && (Token(b) <= v[i..] || v[i..] <= Token(b));
    TrapReadable(a, v[i..], b, vars.Keys);
    if BraceFree(a) && BraceFree(b) {
      TrapPlain(a, v[i..], b);
    }
    assert (v + Print(trap))[i..] == v[i..] + Print(trap);
    var others := Enumeration(vars.Keys - {a, b});
    LastTwo(others, vars.Keys, a, b);
    assert {b, a} == {a, b};
    LastTwo(others, vars.Keys, b, a);
    TrapSprings(vars, others, a, b, trap, i);
    parts, o, p := [Hole(a)] + trap, others + [a, b], others + [b, a];
  }

  lemma TwoPasses(body: string, a: string, b: string, vars: map<string, string>)
    requires a in vars && b in vars
    ensures RenderIn(body, [a, b], vars) == ReplaceAll(ReplaceAll(body, Token(a), vars[a]), Token(b), vars[b])
  {
    var order := [a, b];
    var once := ReplaceAll(body, Token(a), vars[a]);
    assert order[1..] == [b] && [b][1..] == [];
    assert RenderIn(body, order, vars) == RenderIn(once, order[1..], vars);
    assert RenderIn(once, [b], vars) == RenderIn(ReplaceAll(once, Token(b), vars[b]), [b][1..], vars);
  }

  lemma FirstPass(trap: seq<Part>, a: string, v: string)
    requires Clear([Hole(a)] + trap, a) && forall p :: p in trap ==> p.Text?
    ensures ReplaceAll(Print([Hole(a)] + trap), Token(a), v) == v + Print(trap)
  {
    var parts := [Hole(a)] + trap;
    assert parts[1..] == trap;
    assert forall p :: p in trap ==> p in parts;
    PassFills(trap, a, v);
    assert Substitute(trap, map[a := v]) == trap;
    TokenReplaced(Print(trap), a, v);
  }

  /** For any map of variables, of any size, whose placeholders cannot overlap: the order in which the loop
      ranges over it never matters if and only if no value can take part in another variable's placeholder. */
  lemma OrderFreeIffSeparate(vars: map<string, string>)
    requires Apart(vars.Keys)
    ensures OrderFree(vars) <==> Separate(vars)
    ensures Simultaneous(vars) <==> Separate(vars)
  {
    if Separate(vars) {
      forall parts, o | Readable(parts, vars.Keys) && Enumerates(o, vars.Keys)
        ensures RenderIn(Print(parts), o, vars) == Print(Substitute(parts, vars))
      {
        OrderIrrelevant(parts, o, vars);
      }
    } else {
      var a, b :| a in vars && b in vars && a != b && !Fixed(b, vars) && !Inert(vars[a], b);
      var parts, o, p := Trapped(vars, a, b);
    }
  }

  /** In particular for values without "{{" that do not end in '{', whatever the keys. */
  lemma PlainValues(vars: map<string, string>)
    requires forall k :: k in vars ==> Plain(vars[k])
    ensures Separate(vars)
  {
    forall a, b | a in vars && b in vars && a != b ensures Inert(vars[a], b) {
      PlainIsInert(vars[a], b);
    }
  }

  // ---- keys without braces ----

  lemma TokenTail(b: string, n: nat)
    requires BraceFree(b) && 1 <= n < |Token(b)|
    ensures Plain(Token(b)[n..])
  {
    var t := Token(b);
    var rest := t[n..];
    assert t[|t| - 1] == '}';
    assert forall k :: 2 <= k < |t| ==> t[k] != '{';
    assert forall k :: 0 <= k < |rest| ==> rest[k] == t[n + k];
  }

  lemma TrapPlain(a: string, ending: string, b: string)
    requires ending != "" && BraceFree(a) && BraceFree(b)
    ensures WellFormed([Hole(a)] + Trap(ending, b))
  {
    if |ending| < |Token(b)| {
      TokenTail(b, |ending|);
    }
  }

  lemma BraceFreeTokens(a: string, b: string, i: nat)
    requires BraceFree(a) && BraceFree(b) && i < |Token(a)| && Begins(Token(a), i, b)
    ensures a == b && i == 0
  {
    var s := Token(a);
    if i > 0 {
      TokenTail(a, i);
      PlainIsInert(s[i..], b);
      assert s[i..][0..] == s[i..];
      assert Begins(s[i..], 0, b);
    } else if a != b {
      assert s[0..] == s && s + "" == s && Token(b) + "" == Token(b);
      TokensDiffer(a, b, "");
      TokensDiffer(b, a, "");
    }
  }

  lemma BraceFreeHole(a: string, b: string)
    requires BraceFree(a) && BraceFree(b) && a != b
    ensures Inert(Token(a), b)
  {
    forall i | 0 <= i < |Token(a)| ensures !Begins(Token(a), i, b) {
      if Begins(Token(a), i, b) {
        BraceFreeTokens(a, b, i);
      }
    }
  }

  /** Placeholders without braces inside cannot overlap, and every well-formed template is readable. */
  lemma BraceFreeKeys(keys: set<string>, parts: seq<Part>)
    requires forall k :: k in keys ==> BraceFree(k)
    ensures Apart(keys)
    ensures WellFormed(parts) ==> Readable(parts, keys)
  {
    forall a, b, i | a in keys && b in keys && 0 <= i < |Token(a)| && Begins(Token(a), i, b) ensures a == b && i == 0 {
      BraceFreeTokens(a, b, i);
    }
    if WellFormed(parts) {
      forall k, p | k in keys && p in parts ensures p == Hole(k) || Inert(PrintPart(p), k) {
        match p
        case Text(text) => PlainIsInert(text, k);
        case Hole(j) =>
          if j != k {
            BraceFreeHole(j, k);
          }
      }
    }
  }

  /** With such keys the condition is exact already on the well-formed templates. */
  lemma WellFormedIffSeparate(vars: map<string, string>)
    requires forall k :: k in vars ==> BraceFree(k)
    ensures Separate(vars) <==>
      forall parts, o, p :: WellFormed(parts) && Enumerates(o, vars.Keys) && Enumerates(p, vars.Keys) ==>
        RenderIn(Print(parts), o, vars) == RenderIn(Print(parts), p, vars)
  {
    BraceFreeKeys(vars.Keys, []);
    if Separate(vars) {
      forall parts, o | WellFormed(parts) && Enumerates(o, vars.Keys)
        ensures RenderIn(Print(parts), o, vars) == Print(Substitute(parts, vars))
      {
        BraceFreeKeys(vars.Keys, parts);
        OrderIrrelevant(parts, o, vars);
      }
    } else {
      var a, b :| a in vars && b in vars && a != b && !Fixed(b, vars) && !Inert(vars[a], b);
      var parts, o, p := Trapped(vars, a, b);
    }
  }

  /** Where placeholders do overlap a template no longer says which of them it has: one text is read with
      the one and with the other. */
  lemma OverlapIsAmbiguous(a: string, b: string, i: nat) returns (ps: seq<Part>, qs: seq<Part>)
    requires i < |Token(a)| && Begins(Token(a), i, b)
    ensures Print(ps) == Print(qs) && Hole(a) in ps && Hole(b) in qs
    ensures |qs| == 3 && qs[1] == Hole(b) && |PrintPart(qs[0])| == i && ps[0] == Hole(a)
  {
    var s, t := Token(a), Token(b);
    if t <= s[i..] {
      OverlapInside(a, b, i);
      ps, qs := [Hole(a), Text("")], [Text(s[..i]), Hole(b), Text(s[i + |t|..])];
    } else {
      OverlapAcross(a, b, i);
      ps, qs := [Hole(a), Text(t[|s| - i..])], [Text(s[..i]), Hole(b), Text("")];
    }
  }

  lemma OverlapInside(a: string, b: string, i: nat)
    requires i < |Token(a)| && Token(b) <= Token(a)[i..]
    ensures Print([Hole(a), Text("")]) == Print([Text(Token(a)[..i]), Hole(b), Text(Token(a)[i + |Token(b)|..])])
  {
    var s, t := Token(a), Token(b);
    TwoReadings(a, "", s[..i], b, s[i + |t|..]);
    JoinedInside(s, i, t);
  }

  lemma JoinedInside(s: string, i: nat, t: string)
    requires i <= |s| && t <= s[i..]
    ensures s + "" == s[..i] + (t + s[i + |t|..])
  {
    assert s[i..] == t + s[i..][|t|..] && s[i..][|t|..] == s[i + |t|..];
    assert s == s[..i] + s[i..];
  }

  lemma OverlapAcross(a: string, b: string, i: nat)
    requires i < |Token(a)| && Token(a)[i..] <= Token(b)
    ensures Print([Hole(a), Text(Token(b)[|Token(a)| - i..])]) == Print([Text(Token(a)[..i]), Hole(b), Text("")])
  {
    var s, t := Token(a), Token(b);
    TwoReadings(a, t[|s| - i..], s[..i], b, "");
    JoinedAcross(s, i, t);
  }

  lemma JoinedAcross(s: string, i: nat, t: string)
    requires i <= |s| && s[i..] <= t
    ensures s + t[|s| - i..] == s[..i] + (t + "")
  {
    var x := t[|s| - i..];
    assert t == s[i..] + x && t + "" == t;
    assert s == s[..i] + s[i..];
  }

  lemma TwoReadings(a: string, x: string, w: string, b: string, y: string)
    ensures Print([Hole(a), Text(x)]) == Token(a) + x
    ensures Print([Text(w), Hole(b), Text(y)]) == w + (Token(b) + y)
  {
    var qs := [Text(w), Hole(b), Text(y)];
    assert [Hole(a), Text(x)][1..] == [Text(x)] && qs[1..] == [Hole(b), Text(y)] && qs[1..][1..] == [Text(y)];
    PrintText(x);
    PrintText(y);
  }

  const NESTED: string := "{{a}}b}}"
  const NESTING: map<string, string> := map["a" := "x", "a}}b" := "y"]

  /** So for keys with braces the condition is not enough: the two values are harmless and the template is
      well-formed, but its hole begins the placeholder of the other key. */
  lemma BracesMatter()
    ensures Separate(NESTING) && !Apart(NESTING.Keys)
    ensures WellFormed([Hole("a"), Text("b}}")]) && Print([Hole("a"), Text("b}}")]) == NESTED
    ensures Enumerates(["a", "a}}b"], NESTING.Keys) && RenderIn(NESTED, ["a", "a}}b"], NESTING) == "xb}}"
    ensures Enumerates(["a}}b", "a"], NESTING.Keys) && RenderIn(NESTED, ["a}}b", "a"], NESTING) == "y"
  {
    NestedTemplate();
    NestedKeys();
    NestedPasses();
    PlainValues(NESTING);
    TwoPasses(NESTED, "a", "a}}b", NESTING);
    TwoPasses(NESTED, "a}}b", "a", NESTING);
  }

  lemma NestedTemplate()
    ensures WellFormed([Hole("a"), Text("b}}")]) && Print([Hole("a"), Text("b}}")]) == NESTED
  {
    PrintText("b}}");
    assert [Hole("a"), Text("b}}")][1..] == [Text("b}}")];
  }

  lemma NestedKeys()
    ensures !Apart(NESTING.Keys)
  {
    assert Begins(Token("a"), 0, "a}}b") by {
      assert Token("a}}b") == NESTED && Token("a")[0..] == "{{a}}" == NESTED[..5];
    }
  }

  lemma NestedPasses()
    ensures ReplaceAll(NESTED, Token("a"), "x") == "xb}}" && ReplaceAll("xb}}", Token("a}}b"), "y") == "xb}}"
    ensures ReplaceAll(NESTED, Token("a}}b"), "y") == "y" && ReplaceAll("y", Token("a"), "x") == "y"
  {
    TokenReplaced("b}}", "a", "x");
    assert Token("a") + "b}}" == NESTED;
    PlainIsInert("b}}", "a");
    InertSkipped("b}}", "", "a", "x");
    TokenReplaced("", "a}}b", "y");
    assert Token("a}}b") + "" == NESTED;
  }

  /** For instance a value that holds a placeholder. */
  lemma OrderMatters()
    ensures var vars := map["a" := "{{b}}", "b" := "x"];
      && WellFormed([Hole("a")]) && Enumerates(["a", "b"], vars.Keys) && Enumerates(["b", "a"], vars.Keys)
      && RenderIn(Print([Hole("a")]), ["a", "b"], vars) == "x"
      && RenderIn(Print([Hole("a")]), ["b", "a"], vars) == "{{b}}"
  {
    var vars := map["a" := "{{b}}", "b" := "x"];
    assert Print([Hole("a")]) == "{{a}}";
    TokenReplaced("", "a", "{{b}}");
    TokenReplaced("", "b", "x");
    BraceFreeHole("a", "b");
    InertSkipped(Token("a"), "", "b", "x");
    assert ReplaceAll("{{a}}", Token("a"), "{{b}}") == "{{b}}" by { assert Token("a") + "" == "{{a}}"; }
    assert ReplaceAll("{{b}}", Token("b"), "x") == "x" by { assert Token("b") + "" == "{{b}}"; }
    assert ReplaceAll("{{a}}", Token("b"), "x") == "{{a}}" by { assert Token("a") + "" == "{{a}}"; }
    assert ["a", "b"][1..] == ["b"] && ["b"][1..] == [] && ["b", "a"][1..] == ["a"] && ["a"][1..] == [];
  }

  // ---- the sender's loop ----

  lemma {:induction false} RenderSnoc(body: string, order: seq<string>, key: string, vars: map<string, string>)
    requires key in vars && forall k :: k in order ==> k in vars
    ensures RenderIn(body, order + [key], vars) == ReplaceAll(RenderIn(body, order, vars), Token(key), vars[key])
    decreases |order|
  {
    if order == [] {
      assert order + [key] == [key];
    } else {
      assert (order + [key])[1..] == order[1..] + [key];
      RenderSnoc(ReplaceAll(body, Token(order[0]), vars[order[0]]), order[1..], key, vars);
    }
  }

  /** Ranges over the map, in an order that the caller cannot choose. */
  method Render(templateBody: string, vars: map<string, string>) returns (body: string, ghost order: seq<string>)
    ensures Enumerates(order, vars.Keys) && body == RenderIn(templateBody, order, vars)
    ensures Separate(vars) ==>
      forall parts :: Readable(parts, vars.Keys) && Print(parts) == templateBody ==>
        body == Print(Substitute(parts, vars))
  {
    body, order := templateBody, [];
    var rest := vars.Keys;
    while rest != {}
      invariant rest <= vars.Keys && Enumerates(order, vars.Keys - rest)
      invariant body == RenderIn(templateBody, order, vars)
      decreases rest
    {
      var k :| k in rest;
      RenderSnoc(templateBody, order, k, vars);
      body := ReplaceAll(body, Token(k), vars[k]);
      rest, order := rest - {k}, order + [k];
    }
    if Separate(vars) {
      forall parts | Readable(parts, vars.Keys) && Print(parts) == templateBody
        ensures body == Print(Substitute(parts, vars))
      {
        OrderIrrelevant(parts, order, vars);
      }
    }
  }
}
