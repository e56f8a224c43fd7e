/** Failure and option types, and the string trimming shared by the other modules. */
module Wrappers {

  datatype Option<+T> = None | Some(value: T) {
    function GetOr(default: T): T {
      if Some? then value else default
    }
  }

  datatype Result<+T, +E> = Ok(value: T) | Err(error: E)

  /** `q` lists the elements of `s`, each once: the rows a query returns, in an order it chooses. */
  ghost predicate Enumerates<T(!new)>(q: seq<T>, s: set<T>) {
    && (forall i :: 0 <= i < |q| ==> q[i] in s)
    && (forall x :: x in s ==> x in q)
    && (forall i, j :: 0 <= i < j < |q| ==> q[i] != q[j])
  }

  function SetOf<T>(q: seq<T>): set<T> {
    set x | x in q
  }

  /** Runs a query: lists the selected keys in some order. */
  method Enumerate<T(!new, ==)>(s: set<T>) returns (q: seq<T>)
    ensures Enumerates(q, s)
    ensures |q| == |s|
  {
    q := [];
    var rest := s;
    while rest != {}
      invariant rest <= s
      invariant Enumerates(q, s - rest)
      invariant |q| + |rest| == |s|
      decreases rest
    {
      var x :| x in rest;
      q := q + [x];
      rest := rest - {x};
    }
  }

  lemma SnocJoin<T>(a: seq<T>, b: seq<T>)
    requires b != []
    ensures a + b == a + b[..|b| - 1] + [b[|b| - 1]]
  {}

  /** No finite set holds every string: there is always another UUID. */
  lemma FreshString(taken: set<string>) returns (x: string)
    ensures x !in taken
  {
    var n := LongerThanAll(taken);
    x := seq(n, i => 'x');
  }

  lemma {:induction false} LongerThanAll(taken: set<string>) returns (n: nat)
    ensures forall x <- taken :: |x| < n
    decreases taken
  {
    n := 0;
    if taken != {} {
      var x :| x in taken;
      n := LongerThanAll(taken - {x});
      n := if |x| < n then n else |x| + 1;
    }
  }

  // The characters String.prototype.trim removes.
  predicate IsSpace(c: char) {
    || '\t' <= c <= '\r' || c == ' ' || c == '\U{00A0}' || c == '\U{1680}'
    || '\U{2000}' <= c <= '\U{200A}' || c == '\U{2028}' || c == '\U{2029}'
    || c == '\U{202F}' || c == '\U{205F}' || c == '\U{3000}' || c == '\U{FEFF}'
  }

  function TrimStart(s: string): string {
    if s != [] && IsSpace(s[0]) then TrimStart(s[1..]) else s
  }

  function TrimEnd(s: string): string {
    if s != [] && IsSpace(s[|s| - 1]) then TrimEnd(s[..|s| - 1]) else s
  }

  function Trim(s: string): string {
    TrimEnd(TrimStart(s))
  }

  predicate Blank(s: string) {
    Trim(s) == []
  }

  /** White space and line terminators of ECMAScript, by code point. */
  lemma SpacesTell(c: char)
    ensures IsSpace(c) <==>
      var n := c as int;
      || n in {0x9, 0xA, 0xB, 0xC, 0xD, 0x20, 0xA0, 0x1680, 0x2028, 0x2029, 0x202F, 0x205F, 0x3000, 0xFEFF}
      || 0x2000 <= n <= 0x200A
  {}

  predicate AllSpace(s: string) {
    forall i :: 0 <= i < |s| ==> IsSpace(s[i])
  }

  lemma {:induction false} TrimStartTells(s: string) returns (spaces: string)
    ensures s == spaces + TrimStart(s) && AllSpace(spaces)
    ensures TrimStart(s) == [] || !IsSpace(TrimStart(s)[0])
  {
    spaces := [];
    if s != [] && IsSpace(s[0]) {
      spaces := TrimStartTells(s[1..]);
      spaces := [s[0]] + spaces;
    }
  }

  lemma {:induction false} TrimEndTells(s: string) returns (spaces: string)
    ensures s == TrimEnd(s) + spaces && AllSpace(spaces)
    ensures TrimEnd(s) == [] || !IsSpace(TrimEnd(s)[|TrimEnd(s)| - 1])
  {
    spaces := [];
    if s != [] && IsSpace(s[|s| - 1]) {
      spaces := TrimEndTells(s[..|s| - 1]);
      spaces := spaces + [s[|s| - 1]];
    }
  }

  /** Trimming takes spaces off both ends, all of them, and nothing else. */
  lemma TrimTells(s: string) returns (before: string, after: string)
    ensures s == before + Trim(s) + after && AllSpace(before) && AllSpace(after)
    ensures Trim(s) != [] ==> !IsSpace(Trim(s)[0]) && !IsSpace(Trim(s)[|Trim(s)| - 1])
  {
    before := TrimStartTells(s);
    after := TrimEndTells(TrimStart(s));
    assert Trim(s) != [] ==> TrimStart(s)[0] == Trim(s)[0];
  }

  /** A text is blank exactly when it is nothing but spaces. */
  lemma BlankTells(s: string)
    ensures Blank(s) <==> forall i :: 0 <= i < |s| ==> IsSpace(s[i])
  {
    var before, after := TrimTells(s);
    if !Blank(s) {
      assert s[|before|] == Trim(s)[0];
    } else {
      assert s == before + after;
    }
  }

  /** Trimming twice changes nothing more: what was trimmed and kept is not blank. */
  lemma TrimmedStays(s: string)
    ensures Trim(Trim(s)) == Trim(s)
  {
    var before, after := TrimTells(s);
    assert Trim(s) != [] ==> TrimStart(Trim(s)) == Trim(s);
  }
}
