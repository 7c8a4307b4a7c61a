// The box-shadow CSS serialiser (utils/box_shadow.ts).
module ShadowCss {
  import opened Types

  /** A piece of the CSS template: literal text, or a number JavaScript formats into it. */
  datatype Part = Text(s: string) | Num(n: real)

  const SEPARATOR := "px\n          "

  /**
   * boxShadowCss: the offsets, blur and spread of the shadow times the
   * window scale, in that order, then a black rgba colour whose alpha is the
   * opacity percentage divided by 100 (not scaled).
   */
  function BoxShadowCss(shadow: BoxShadow, scale: real): (r: seq<Part>)
    ensures |r| == 11 && r[0] == Text("box-shadow: ") && r[10] == Text(")")
  {
    Template(Scaled(shadow.horizontalOffset, scale), Scaled(shadow.verticalOffset, scale),
             Scaled(shadow.blurOffset, scale), Scaled(shadow.spreadRadius, scale), shadow.opacity / 100.0)
  }

  /** A length in logical pixels times the window scale. */
  function Scaled(x: real, scale: real): real
  {
    x * scale
  }

  /** The template of boxShadowCss with its five numbers filled in. */
  function Template(h: real, v: real, blur: real, spread: real, alpha: real): (r: seq<Part>)
    ensures |r| == 11 && r[0] == Text("box-shadow: ") && r[10] == Text(")")
    ensures forall i | 0 <= i < 5 :: r[2 * i + 1].Num? && r[2 * i + 2].Text?
  {
    [Text("box-shadow: ")] + Field(h, SEPARATOR) + Field(v, SEPARATOR) + Field(blur, SEPARATOR)
    + Field(spread, "px\n          rgba(0,0,0, ") + Field(alpha, ")")
  }

  /** A number and the text after it. */
  function Field(n: real, after: string): seq<Part>
  {
    [Num(n), Text(after)]
  }

  /** The scale the caller gets when it gives none. */
  const DEFAULT_SCALE: real := 1.0

  /** The numbers of a template, in order. */
  function Numbers(parts: seq<Part>): seq<real>
  {
    if parts == [] then [] else (if parts[0].Num? then [parts[0].n] else []) + Numbers(parts[1..])
  }

  /** The literal text of a template, in order. */
  function Texts(parts: seq<Part>): seq<string>
  {
    if parts == [] then [] else (if parts[0].Text? then [parts[0].s] else []) + Texts(parts[1..])
  }

  /** The numbers are horizontal, vertical, blur and spread scaled, then the opacity as a fraction. */
  lemma NumbersInOrder(shadow: BoxShadow, scale: real)
    ensures Numbers(BoxShadowCss(shadow, scale)) == [
      Scaled(shadow.horizontalOffset, scale), Scaled(shadow.verticalOffset, scale),
      Scaled(shadow.blurOffset, scale), Scaled(shadow.spreadRadius, scale), shadow.opacity / 100.0]
  {
    TemplateNumbers(Scaled(shadow.horizontalOffset, scale), Scaled(shadow.verticalOffset, scale),
      Scaled(shadow.blurOffset, scale), Scaled(shadow.spreadRadius, scale), shadow.opacity / 100.0);
  }

  lemma TemplateNumbers(h: real, v: real, blur: real, spread: real, alpha: real)
    ensures Numbers(Template(h, v, blur, spread, alpha)) == [h, v, blur, spread, alpha]
  {
    var head := [Text("box-shadow: ")];
    var f1, f2, f3 := Field(h, SEPARATOR), Field(v, SEPARATOR), Field(blur, SEPARATOR);
    var f4, f5 := Field(spread, "px\n          rgba(0,0,0, "), Field(alpha, ")");
    NumbersAppend(head, f1);
    NumbersAppend(head + f1, f2);
    NumbersAppend(head + f1 + f2, f3);
    NumbersAppend(head + f1 + f2 + f3, f4);
    NumbersAppend(head + f1 + f2 + f3 + f4, f5);
    FieldNumbers(h, SEPARATOR);
    FieldNumbers(v, SEPARATOR);
    FieldNumbers(blur, SEPARATOR);
    FieldNumbers(spread, "px\n          rgba(0,0,0, ");
    FieldNumbers(alpha, ")");
  }

  lemma FieldNumbers(n: real, after: string)
    ensures Numbers(Field(n, after)) == [n]
  {
    var f := Field(n, after);
    assert f[1..] == [Text(after)];
    assert Numbers(f[1..][1..]) == [];
    assert Numbers(f[1..]) == [];
  }

  lemma {:induction false} NumbersAppend(a: seq<Part>, b: seq<Part>)
    ensures Numbers(a + b) == Numbers(a) + Numbers(b)
  {
    if a == [] {
      assert a + b == b;
    } else {
      assert (a + b)[1..] == a[1..] + b;
      NumbersAppend(a[1..], b);
    }
  }

  /** The colour is fixed black: the only text around the numbers is the template's. */
  lemma FixedText(shadow: BoxShadow, scale: real, other: BoxShadow, otherScale: real)
    ensures Texts(BoxShadowCss(shadow, scale)) == Texts(BoxShadowCss(other, otherScale))
    ensures |BoxShadowCss(shadow, scale)| == 11
  {
    var p, q := BoxShadowCss(shadow, scale), BoxShadowCss(other, otherScale);
    assert forall i | 0 <= i < 11 :: p[i].Text? == q[i].Text? && (p[i].Text? ==> p[i] == q[i]);
    TextsAgree(p, q);
  }

  lemma {:induction false} TextsAgree(p: seq<Part>, q: seq<Part>)
    requires |p| == |q|
    requires forall i | 0 <= i < |p| :: p[i].Text? == q[i].Text? && (p[i].Text? ==> p[i] == q[i])
    ensures Texts(p) == Texts(q)
  {
    if p != [] {
      TextsAgree(p[1..], q[1..]);
    }
  }

  /** The shadow is read back from its CSS at any non-zero scale. */
  lemma ShadowRecoverable(shadow: BoxShadow, scale: real)
    requires scale != 0.0
    ensures |Numbers(BoxShadowCss(shadow, scale))| == 5
    ensures var n := Numbers(BoxShadowCss(shadow, scale));
      BoxShadow(100.0 * n[4], n[3] / scale, n[2] / scale, n[1] / scale, n[0] / scale) == shadow
  {
    NumbersInOrder(shadow, scale);
  }

  /** With the default scale the CSS carries the raw values. */
  lemma DefaultScaleKeepsValues(shadow: BoxShadow)
    ensures Numbers(BoxShadowCss(shadow, DEFAULT_SCALE)) == [
      shadow.horizontalOffset, shadow.verticalOffset, shadow.blurOffset, shadow.spreadRadius, shadow.opacity / 100.0]
  {
    NumbersInOrder(shadow, DEFAULT_SCALE);
  }

  /** The string, given JavaScript's number formatting. */
  function Render(parts: seq<Part>, format: real -> string): (r: string)
    ensures parts != [] && parts[0].Text? ==> parts[0].s <= r
  {
    if parts == [] then [] else (if parts[0].Text? then parts[0].s else format(parts[0].n)) + Render(parts[1..], format)
  }

  lemma RenderStartsWithProperty(shadow: BoxShadow, scale: real, format: real -> string)
    ensures var css := Render(BoxShadowCss(shadow, scale), format);
      |css| >= 12 && css[..12] == "box-shadow: "
  {
    var p := BoxShadowCss(shadow, scale);
    assert Render(p, format) == "box-shadow: " + Render(p[1..], format);
  }
}
