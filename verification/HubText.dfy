/** The texts a receipt hash covers: decimal numbers and newline-separated lines. */
module HubText {
  import opened JsonText
  import opened Texts

  /** Text before the first newline is read back unambiguously. */
  lemma LineCut(p: string, s: string, q: string, t: string)
    requires OneLine(p) && OneLine(q) && p + "\n" + s == q + "\n" + t
    ensures p == q && s == t
  {
    var u, v := p + "\n" + s, q + "\n" + t;
    assert u[|p|] == '\n' && v[|q|] == '\n';
    assert forall i :: 0 <= i < |p| ==> u[i] == p[i];
    assert forall i :: 0 <= i < |q| ==> v[i] == q[i];
    assert |p| == |q|;
    assert p == u[..|p|] && q == v[..|q|] && s == u[|p| + 1..] && t == v[|q| + 1..];
  }

  lemma DecimalIsOneLine(n: int)
    ensures OneLine(Decimal(n))
  {
    DecimalIsNumeral(n);
    forall i | 0 <= i < |Decimal(n)| ensures Decimal(n)[i] != '\n' {
      assert NumeralChar(Decimal(n)[i]);
    }
  }
}
