/** Task, group and slot identifiers.

    Every derived identifier is its parent's string followed by one segment: ":<k>" for a
    chain link, a stage or a trigger, ":m<j>" for a group member or slot, ":cb" for a
    callback. `Render` is that string; the lemmas show it identifies the task, so the
    model can work with `Id` values where the program compares strings. */
module Ids {

  datatype Id =
    | Root(name: string)            // a UUID, a client's task ID or a schedule ID
    | Indexed(parent: Id, k: nat)
    | Member(parent: Id, j: nat)
    | Callback(parent: Id)

  function RootOf(id: Id): string {
    match id
    case Root(name) => name
    case Indexed(p, _) => RootOf(p)
    case Member(p, _) => RootOf(p)
    case Callback(p) => RootOf(p)
  }

  lemma RootOfDerived(u: string, k: nat, j: nat)
    ensures RootOf(Root(u)) == RootOf(Indexed(Root(u), k)) == RootOf(Member(Root(u), j)) == u
    ensures RootOf(Member(Indexed(Root(u), k), j)) == RootOf(Callback(Indexed(Root(u), k))) == u
    ensures RootOf(Indexed(Member(Root(u), j), k)) == RootOf(Callback(Root(u))) == u
  {
    assert RootOf(Root(u)) == u;
    assert RootOf(Indexed(Root(u), k)) == u && RootOf(Member(Root(u), j)) == u;
  }

  // ----- decimal numbers -----

  function Digit(d: nat): (c: char)
    requires d < 10
    ensures '0' <= c <= '9'
  {
    '0' + (d as char)
  }

  function Decimal(n: nat): (s: string)
    ensures s != [] && forall i :: 0 <= i < |s| ==> '0' <= s[i] <= '9'
  {
    if n < 10 then [Digit(n)] else Decimal(n / 10) + [Digit(n % 10)]
  }

  function Value(s: string): nat
    requires forall i :: 0 <= i < |s| ==> '0' <= s[i] <= '9'
  {
    if s == [] then 0 else Value(s[..|s| - 1]) * 10 + (s[|s| - 1] - '0') as nat
  }

  /** Reading a printed number gives the number back. */
  lemma {:induction false} DecimalRoundTrip(n: nat)
    ensures Value(Decimal(n)) == n
  {
    var s := Decimal(n);
    if n < 10 {
      assert s[..0] == [];
    } else {
      assert s[..|s| - 1] == Decimal(n / 10);
      DecimalRoundTrip(n / 10);
    }
  }

  lemma DecimalInjective(m: nat, n: nat)
    requires Decimal(m) == Decimal(n)
    ensures m == n
  {
    DecimalRoundTrip(m);
    DecimalRoundTrip(n);
  }

  // ----- rendering -----

  /** The last segment of a derived identifier, without its colon. */
  function Segment(id: Id): (s: string)
    requires !id.Root?
    ensures s != [] && ':' !in s
  {
    match id
    case Indexed(_, k) => NoColon(Decimal(k)); Decimal(k)
    case Member(_, j) => NoColon(Decimal(j)); "m" + Decimal(j)
    case Callback(_) => "cb"
  }

  lemma NoColon(s: string)
    requires forall i :: 0 <= i < |s| ==> '0' <= s[i] <= '9'
    ensures ':' !in s
  {
  }

  function Render(id: Id): string {
    if id.Root? then id.name else Render(id.parent) + ":" + Segment(id)
  }

  lemma AfterColon(a: string, x: string)
    requires ':' !in x
    ensures (a + ":" + x)[|a|] == ':'
    ensures forall i :: |a| < i < |a| + 1 + |x| ==> (a + ":" + x)[i] != ':'
  {
    forall i | |a| < i < |a| + 1 + |x| ensures (a + ":" + x)[i] != ':' {
      assert (a + ":" + x)[i] == x[i - |a| - 1];
    }
  }

  /** Two renderings that agree after a last colon agree on both sides of it. */
  lemma {:induction false} LastColon(a: string, x: string, b: string, y: string)
    requires ':' !in x && ':' !in y && a + ":" + x == b + ":" + y
    ensures a == b && x == y
  {
    var s := a + ":" + x;
    AfterColon(a, x);
    AfterColon(b, y);
    assert |a| == |b|;
    assert a == s[..|a|] == (b + ":" + y)[..|b|] == b;
    assert x == s[|a| + 1..] == (b + ":" + y)[|b| + 1..] == y;
  }

  lemma FirstCharacter(id: Id)
    requires !id.Root?
    ensures id.Indexed? <==> '0' <= Segment(id)[0] <= '9'
    ensures id.Member? <==> Segment(id)[0] == 'm'
    ensures id.Callback? <==> Segment(id)[0] == 'c'
    ensures id.Callback? ==> Segment(id) == "cb"
  {
  }

  lemma SegmentInjective(a: Id, b: Id)
    requires !a.Root? && !b.Root? && a.parent == b.parent && Segment(a) == Segment(b)
    ensures a == b
  {
    FirstCharacter(a);
    FirstCharacter(b);
    match (a, b) {
      case (Indexed(_, m), Indexed(_, n)) => DecimalInjective(m, n);
      case (Member(_, m), Member(_, n)) =>
        assert ("m" + Decimal(m))[1..] == Decimal(m) && ("m" + Decimal(n))[1..] == Decimal(n);
        DecimalInjective(m, n);
      case _ =>
    }
  }

  lemma {:induction false} RenderPrefix(id: Id)
    ensures |RootOf(id)| <= |Render(id)| && Render(id)[..|RootOf(id)|] == RootOf(id)
    ensures !id.Root? ==> |Render(id)| > |RootOf(id)|
  {
    if !id.Root? { RenderPrefix(id.parent); }
  }

  /** Within one root, whatever that root's text, no two identifiers share a string. */
  lemma {:induction false} RenderInjectiveWithinRoot(a: Id, b: Id)
    requires RootOf(a) == RootOf(b) && Render(a) == Render(b)
    ensures a == b
  {
    RenderPrefix(a);
    RenderPrefix(b);
    if !a.Root? && !b.Root? {
      LastColon(Render(a.parent), Segment(a), Render(b.parent), Segment(b));
      RenderInjectiveWithinRoot(a.parent, b.parent);
      SegmentInjective(a, b);
    }
  }

  lemma DerivedHasColon(id: Id)
    requires !id.Root?
    ensures ':' in Render(id)
  {
    assert Render(id)[|Render(id.parent)|] == ':';
  }

  /** With colon-free roots (UUIDs) identifiers never clash across roots either. */
  lemma {:induction false} RenderInjective(a: Id, b: Id)
    requires ':' !in RootOf(a) && ':' !in RootOf(b) && Render(a) == Render(b)
    ensures a == b
  {
    if a.Root? && !b.Root? {
      DerivedHasColon(b);
      assert false;
    }
    if !a.Root? && b.Root? {
      DerivedHasColon(a);
      assert false;
    }
    if !a.Root? {
      LastColon(Render(a.parent), Segment(a), Render(b.parent), Segment(b));
      RenderInjective(a.parent, b.parent);
      SegmentInjective(a, b);
    }
  }

  /** A root with a colon can clash with another root's derived identifier. */
  lemma ColonRootsClash()
    ensures Render(Root("c:1")) == Render(Indexed(Root("c"), 1))
    ensures Root("c:1") != Indexed(Root("c"), 1)
  {
    assert Decimal(1) == "1";
    assert Render(Indexed(Root("c"), 1)) == "c" + ":" + "1";
  }
}
