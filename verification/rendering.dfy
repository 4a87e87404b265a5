/**
 * What the message printer produces, as pure functions. `RenderField` gives the
 * text directly; `FieldLines` is an independent line-by-line view of the same
 * output (a line at nesting depth d starts with 2*d spaces), and `FieldText`
 * proves that the text is exactly those lines, each followed by a newline.
 */
module Rendering {
  import opened Wrappers
  import opened Messaging
  import opened Decimal

  function Spaces(n: nat): (r: string)
    ensures |r| == n
    ensures forall i :: 0 <= i < n ==> r[i] == ' '
  {
    if n == 0 then [] else Spaces(n - 1) + [' ']
  }

  /** The indentation of a line at nesting depth `depth`. */
  function Indent(depth: nat): string
  {
    Spaces(2 * depth)
  }

  function BoolText(b: bool): string
  {
    if b then "true" else "false"
  }

  /** The position of the first label whose value is `value`, if any. */
  function LabelIndex(labels: seq<Label>, value: int): (r: Option<nat>)
    ensures r.None? <==> forall i :: 0 <= i < |labels| ==> labels[i].value != value
    ensures r.Some? ==> r.value < |labels| && labels[r.value].value == value
    ensures r.Some? ==> forall j :: 0 <= j < r.value ==> labels[j].value != value
  {
    if labels == [] then None
    else if labels[0].value == value then Some(0)
    else match LabelIndex(labels[1..], value)
      case None => None
      case Some(k) => Some(k + 1)
  }

  /** The label for a raw value: the first label in the descriptor's order that maps to it. */
  function LabelFor(labels: seq<Label>, value: int): Option<string>
  {
    match LabelIndex(labels, value)
    case None => None
    case Some(k) => Some(labels[k].text)
  }

  /** The text of an integer value: its label, else the scaled form, else the plain decimal. */
  function IntegerText(d: IntegerDescriptor, value: int): string
  {
    match LabelFor(d.labels, value)
    case Some(text) => text
    case None =>
      match d.scale
      case None => IntToDecimal(value)
      case Some(e) => IntToDecimal(value) + " x 10 ^ " + IntToDecimal(e)
  }

  /** A raw value that has a label prints as the first such label, whatever the scale. */
  lemma LabelWins(d: IntegerDescriptor, value: int, k: nat)
    requires k < |d.labels| && d.labels[k].value == value
    requires forall j :: 0 <= j < k ==> d.labels[j].value != value
    ensures IntegerText(d, value) == d.labels[k].text
  {
    var r := LabelIndex(d.labels, value);
    assert r.Some?;
    assert r.value == k;
  }

  /**
   * Without a matching label, a scaled value prints as "<raw> x 10 ^ <e>"; the
   * exponent carries its minus sign when negative and no sign otherwise.
   */
  lemma ScaledText(d: IntegerDescriptor, value: int, e: int)
    requires forall i :: 0 <= i < |d.labels| ==> d.labels[i].value != value
    requires d.scale == Some(e)
    ensures IntegerText(d, value) == IntToDecimal(value) + " x 10 ^ " + IntToDecimal(e)
    ensures ParseInt(IntToDecimal(value)) == Some(value) && ParseInt(IntToDecimal(e)) == Some(e)
  {
    IntRoundTrip(value);
    IntRoundTrip(e);
  }

  /** Without a matching label or a scale, a value prints as plain decimal text that reads back as the value. */
  lemma PlainText(d: IntegerDescriptor, value: int)
    requires forall i :: 0 <= i < |d.labels| ==> d.labels[i].value != value
    requires d.scale.None?
    ensures ParseInt(IntegerText(d, value)) == Some(value)
  {
    IntRoundTrip(value);
  }

  /** The text after "<name>: " on the line of a scalar field. */
  function ScalarText(f: Field): string
    requires !f.GroupField?
  {
    match f
    case BoolField(_, b) => BoolText(b)
    case StringField(_, s) => s
    case IntegerField(d, v) => IntegerText(d, v)
  }

  /** A Bool value prints as "true" or "false", a String value unchanged. */
  lemma ScalarValues(f: Field)
    requires !f.GroupField?
    ensures f.BoolField? ==> (ScalarText(f) == "true" <==> f.boolValue)
    ensures f.BoolField? ==> (ScalarText(f) == "false" <==> !f.boolValue)
    ensures f.StringField? ==> ScalarText(f) == f.stringValue
  {
    assert "true" != "false" by { assert |"true"| != |"false"|; }
  }

  /** The lines of one field at nesting depth `depth`, without their newlines. */
  function FieldLines(f: Field, depth: nat): (r: seq<string>)
    ensures |r| >= 1
    decreases f
  {
    match f
    case GroupField(d, children) =>
      [Indent(depth) + d.name + " {"] + FieldsLines(children, depth + 1) + [Indent(depth) + "}"]
    case _ =>
      [Indent(depth) + f.Name() + ": " + ScalarText(f)]
  }

  /** The lines of a sequence of fields, one field after the other. */
  function FieldsLines(fs: seq<Field>, depth: nat): seq<string>
    decreases fs
  {
    if fs == [] then [] else FieldLines(fs[0], depth) + FieldsLines(fs[1..], depth)
  }

  /** Lines joined into text, each followed by a newline. */
  function Unlines(lines: seq<string>): string
  {
    if lines == [] then "" else Unlines(lines[..|lines| - 1]) + (lines[|lines| - 1] + "\n")
  }

  /**
   * The text of one field at nesting depth `depth`: a scalar is one line
   * "<indent><name>: <value>", a group is "<indent><name> {", its children one
   * level deeper, and "<indent>}".
   */
  function RenderField(f: Field, depth: nat): string
    decreases f
  {
    match f
    case GroupField(d, children) =>
      Indent(depth) + d.name + " {\n" + RenderFields(children, depth + 1) + Indent(depth) + "}\n"
    case _ =>
      Indent(depth) + f.Name() + ": " + ScalarText(f) + "\n"
  }

  /** The text of a sequence of fields, one field after the other. */
  function RenderFields(fs: seq<Field>, depth: nat): string
    decreases fs
  {
    if fs == [] then "" else RenderField(fs[0], depth) + RenderFields(fs[1..], depth)
  }

  /** The text of a whole message: its top-level fields at depth 0. */
  function RenderMessage(m: Message): string
  {
    RenderFields(m.fields, 0)
  }

  /** Every line shifted right by two spaces. */
  function Indented(lines: seq<string>): (r: seq<string>)
    ensures |r| == |lines|
    ensures forall i :: 0 <= i < |lines| ==> r[i] == "  " + lines[i]
  {
    seq(|lines|, i requires 0 <= i < |lines| => "  " + lines[i])
  }

  lemma {:induction false} UnlinesAppend(a: seq<string>, b: seq<string>)
    ensures Unlines(a + b) == Unlines(a) + Unlines(b)
    decreases |b|
  {
    if b == [] {
      assert a + b == a;
    } else {
      var c := b[..|b| - 1];
      assert (a + b)[..|a + b| - 1] == a + c;
      UnlinesAppend(a, c);
    }
  }

  /** A block of lines between an opening and a closing line. */
  lemma UnlinesBlock(open: string, inner: seq<string>, close: string)
    ensures Unlines([open] + inner + [close]) == open + "\n" + Unlines(inner) + close + "\n"
  {
    UnlinesAppend([open] + inner, [close]);
    UnlinesAppend([open], inner);
    UnlinesSingle(open);
    UnlinesSingle(close);
  }

  lemma UnlinesSingle(line: string)
    ensures Unlines([line]) == line + "\n"
  {
    assert Unlines([line]) == Unlines([]) + (line + "\n");
  }

  /**
   * The text is exactly the lines of the line view, each followed by a
   * newline: the two definitions agree on every field.
   */
  lemma {:induction false} FieldText(f: Field, depth: nat)
    ensures RenderField(f, depth) == Unlines(FieldLines(f, depth))
    decreases f
  {
    match f
    case GroupField(d, children) =>
      FieldsText(children, depth + 1);
      UnlinesBlock(Indent(depth) + d.name + " {", FieldsLines(children, depth + 1), Indent(depth) + "}");
    case _ =>
      var line := Indent(depth) + f.Name() + ": " + ScalarText(f);
      assert FieldLines(f, depth) == [line];
      UnlinesSingle(line);
  }

  lemma {:induction false} FieldsText(fs: seq<Field>, depth: nat)
    ensures RenderFields(fs, depth) == Unlines(FieldsLines(fs, depth))
    decreases fs
  {
    if fs != [] {
      FieldText(fs[0], depth);
      FieldsText(fs[1..], depth);
      UnlinesAppend(FieldLines(fs[0], depth), FieldsLines(fs[1..], depth));
    }
  }

  /**
   * Fields render one after the other, in order, with nothing between them:
   * the text of a concatenation is the concatenation of the texts.
   */
  lemma {:induction false} RenderFieldsAppend(a: seq<Field>, b: seq<Field>, depth: nat)
    ensures RenderFields(a + b, depth) == RenderFields(a, depth) + RenderFields(b, depth)
  {
    if a == [] {
      assert a + b == b;
    } else {
      assert (a + b)[1..] == a[1..] + b;
      RenderFieldsAppend(a[1..], b, depth);
    }
  }

  /** Appending one field appends its text. */
  lemma RenderFieldsSnoc(fs: seq<Field>, f: Field, depth: nat)
    ensures RenderFields(fs + [f], depth) == RenderFields(fs, depth) + RenderField(f, depth)
  {
    RenderFieldsAppend(fs, [f], depth);
    assert RenderFields([f], depth) == RenderField(f, depth) + RenderFields([], depth);
  }

  /** A group's text split into its opening line, its children and its closing line. */
  lemma GroupText(d: GroupDescriptor, children: seq<Field>, depth: nat)
    ensures RenderField(GroupField(d, children), depth)
         == (Indent(depth) + d.name + " {\n") + RenderFields(children, depth + 1) + (Indent(depth) + "}\n")
  {
  }

  lemma IndentStep(depth: nat)
    ensures Indent(depth + 1) == "  " + Indent(depth)
  {
    var a, b := Indent(depth + 1), "  " + Indent(depth);
    assert |a| == |b|;
    forall i | 0 <= i < |a| ensures a[i] == b[i] {
    }
  }

  lemma IndentedAppend(a: seq<string>, b: seq<string>)
    ensures Indented(a + b) == Indented(a) + Indented(b)
  {
  }

  /** A line at depth + 1 is the same line at depth with two more leading spaces. */
  lemma ShiftLine(depth: nat, rest: string)
    ensures [Indent(depth + 1) + rest] == Indented([Indent(depth) + rest])
  {
    IndentStep(depth);
    assert Indent(depth + 1) + rest == "  " + (Indent(depth) + rest);
  }

  /** One level deeper means every line gains exactly two leading spaces. */
  lemma {:induction false} FieldLinesShift(f: Field, depth: nat)
    ensures FieldLines(f, depth + 1) == Indented(FieldLines(f, depth))
    decreases f
  {
    match f
    case GroupField(d, children) =>
      FieldsLinesShift(children, depth + 1);
      var inner := FieldsLines(children, depth + 1);
      var open, close := [Indent(depth) + d.name + " {"], [Indent(depth) + "}"];
      assert FieldLines(f, depth) == open + inner + close;
      IndentedAppend(open + inner, close);
      IndentedAppend(open, inner);
      ShiftLine(depth, d.name + " {");
      ShiftLine(depth, "}");
      assert Indent(depth) + d.name + " {" == Indent(depth) + (d.name + " {");
      assert Indent(depth + 1) + d.name + " {" == Indent(depth + 1) + (d.name + " {");
    case _ =>
      ShiftLine(depth, f.Name() + ": " + ScalarText(f));
      assert Indent(depth) + f.Name() + ": " + ScalarText(f) == Indent(depth) + (f.Name() + ": " + ScalarText(f));
      assert Indent(depth + 1) + f.Name() + ": " + ScalarText(f) == Indent(depth + 1) + (f.Name() + ": " + ScalarText(f));
  }

  lemma {:induction false} FieldsLinesShift(fs: seq<Field>, depth: nat)
    ensures FieldsLines(fs, depth + 1) == Indented(FieldsLines(fs, depth))
    decreases fs
  {
    if fs != [] {
      FieldLinesShift(fs[0], depth);
      FieldsLinesShift(fs[1..], depth);
      IndentedAppend(FieldLines(fs[0], depth), FieldsLines(fs[1..], depth));
    }
  }

  /** Every line of fields rendered at depth `depth` starts with 2*depth spaces. */
  lemma {:induction false} LinesIndented(fs: seq<Field>, depth: nat)
    ensures forall i :: 0 <= i < |FieldsLines(fs, depth)| ==> Indent(depth) <= FieldsLines(fs, depth)[i]
  {
    if depth > 0 {
      LinesIndented(fs, depth - 1);
      FieldsLinesShift(fs, depth - 1);
      IndentStep(depth - 1);
    } else {
      forall i | 0 <= i < |FieldsLines(fs, 0)| ensures Indent(0) <= FieldsLines(fs, 0)[i] {
        assert Indent(0) == [];
      }
    }
  }

  /** Scalar fields give one line each, in order. */
  lemma {:induction false} FlatLines(fs: seq<Field>, depth: nat)
    requires forall i :: 0 <= i < |fs| ==> !fs[i].GroupField?
    ensures |FieldsLines(fs, depth)| == |fs|
    ensures forall i :: 0 <= i < |fs| ==>
      FieldsLines(fs, depth)[i] == Indent(depth) + fs[i].Name() + ": " + ScalarText(fs[i])
  {
    if fs != [] {
      FlatLines(fs[1..], depth);
    }
  }

  /** The lines of top-level scalar children, each indented by two spaces. */
  function ChildLines(children: seq<Field>): (r: seq<string>)
    requires forall i :: 0 <= i < |children| ==> !children[i].GroupField?
  {
    seq(|children|, i requires 0 <= i < |children| =>
          "  " + children[i].Name() + ": " + ScalarText(children[i]))
  }

  lemma ChildLinesAtDepthOne(children: seq<Field>)
    requires forall i :: 0 <= i < |children| ==> !children[i].GroupField?
    ensures FieldsLines(children, 1) == ChildLines(children)
  {
    FlatLines(children, 1);
    assert Indent(1) == "  ";
  }

  /**
   * A top-level group of scalar fields: "<name> {", then each child's line
   * indented by exactly two spaces, then "}" with no indentation.
   */
  lemma TopLevelGroup(d: GroupDescriptor, children: seq<Field>)
    requires forall i :: 0 <= i < |children| ==> !children[i].GroupField?
    ensures RenderField(GroupField(d, children), 0)
         == d.name + " {\n" + Unlines(ChildLines(children)) + "}\n"
  {
    var inner := RenderFields(children, 1);
    assert RenderField(GroupField(d, children), 0) == Indent(0) + d.name + " {\n" + inner + Indent(0) + "}\n";
    FieldsText(children, 1);
    ChildLinesAtDepthOne(children);
    assert Indent(0) == [];
    assert Indent(0) + d.name == d.name;
  }
}
