/**
 * The message printer as the visitor it is: a text buffer and an indentation
 * depth that change as each field is visited. `AcceptMessage` walks a message
 * depth-first the way `Message::Accept` hands each field to the visitor, and a
 * group occurrence is bracketed by `VisitGroup` and `PostVisitGroup`.
 */
module Printer {
  import opened Messaging
  import opened Rendering

  class MessagePrinter {
    var buf: string
    var depth: nat

    constructor ()
      ensures buf == [] && depth == 0
    {
      buf := [];
      depth := 0;
    }

    method AppendLine(line: string)
      modifies this
      ensures depth == old(depth)
      ensures buf == old(buf) + (line + "\n")
    {
      buf := buf + (line + "\n");
    }

    method VisitBool(d: BoolDescriptor, value: bool)
      modifies this
      ensures depth == old(depth)
      ensures buf == old(buf) + RenderField(BoolField(d, value), depth)
    {
      AppendLine(Indent(depth) + d.name + ": " + BoolText(value));
    }

    method VisitString(d: StringDescriptor, value: string)
      modifies this
      ensures depth == old(depth)
      ensures buf == old(buf) + RenderField(StringField(d, value), depth)
    {
      AppendLine(Indent(depth) + d.name + ": " + value);
    }

    method VisitInteger(d: IntegerDescriptor, value: int)
      modifies this
      ensures depth == old(depth)
      ensures buf == old(buf) + RenderField(IntegerField(d, value), depth)
    {
      AppendLine(Indent(depth) + d.name + ": " + IntegerText(d, value));
    }

    /** Opens a group occurrence and moves one level deeper. */
    method VisitGroup(d: GroupDescriptor)
      modifies this
      ensures depth == old(depth) + 1
      ensures buf == old(buf) + (Indent(old(depth)) + d.name + " {\n")
    {
      AppendAssoc(Indent(depth) + d.name, " {", "\n");
      AppendLine(Indent(depth) + d.name + " {");
      depth := depth + 1;
    }

    /** Closes a group occurrence at the depth the group was opened at. */
    method PostVisitGroup()
      requires depth >= 1
      modifies this
      ensures depth == old(depth) - 1
      ensures buf == old(buf) + (Indent(depth) + "}\n")
    {
      depth := depth - 1;
      AppendLine(Indent(depth) + "}");
    }

    /** The text accumulated so far; reading it changes nothing. */
    method AsString() returns (text: string)
      ensures text == buf
    {
      text := buf;
    }
  }

  /** Hands one field to the printer, a group's children between its open and close. */
  method AcceptField(f: Field, p: MessagePrinter)
    modifies p
    ensures p.depth == old(p.depth)
    ensures p.buf == old(p.buf) + RenderField(f, old(p.depth))
    decreases f, 1
  {
    match f
    case BoolField(d, b) =>
      p.VisitBool(d, b);
    case StringField(d, s) =>
      p.VisitString(d, s);
    case IntegerField(d, v) =>
      p.VisitInteger(d, v);
    case GroupField(d, children) =>
      AcceptGroup(d, children, p);
  }

  /**
   * A group occurrence: opened at the current depth, its children one level
   * deeper, then closed at the depth it was opened at.
   */
  method AcceptGroup(d: GroupDescriptor, children: seq<Field>, p: MessagePrinter)
    modifies p
    ensures p.depth == old(p.depth)
    ensures p.buf == old(p.buf) + RenderField(GroupField(d, children), old(p.depth))
    decreases GroupField(d, children), 0
  {
    ghost var start, depth := p.buf, p.depth;
    ghost var open, inner, close := Indent(depth) + d.name + " {\n", RenderFields(children, depth + 1), Indent(depth) + "}\n";
    p.VisitGroup(d);
    AcceptFields(children, p);
    p.PostVisitGroup();
    GroupText(d, children, depth);
    AppendAssoc(start, open, inner);
    AppendAssoc(start, open + inner, close);
  }

  /** Hands each field to the printer in sequence order. */
  method AcceptFields(fs: seq<Field>, p: MessagePrinter)
    modifies p
    ensures p.depth == old(p.depth)
    ensures p.buf == old(p.buf) + RenderFields(fs, old(p.depth))
    decreases fs
  {
    ghost var start, depth, done := p.buf, p.depth, "";
    var i := 0;
    while i < |fs|
      invariant 0 <= i <= |fs|
      invariant p.depth == depth
      invariant done == RenderFields(fs[..i], depth)
      invariant p.buf == start + done
    {
      AcceptField(fs[i], p);
      RenderFieldsPrefix(fs, i, depth);
      AppendAssoc(start, done, RenderField(fs[i], depth));
      done := done + RenderField(fs[i], depth);
      i := i + 1;
    }
    assert fs[..|fs|] == fs;
  }

  /** One more field of the prefix adds that field's text. */
  lemma RenderFieldsPrefix(fs: seq<Field>, i: nat, depth: nat)
    requires i < |fs|
    ensures RenderFields(fs[..i + 1], depth) == RenderFields(fs[..i], depth) + RenderField(fs[i], depth)
  {
    assert fs[..i + 1] == fs[..i] + [fs[i]];
    RenderFieldsSnoc(fs[..i], fs[i], depth);
  }

  /** Regrouping of a concatenation, stated once so the solver need not rediscover it. */
  lemma AppendAssoc(a: string, b: string, c: string)
    ensures a + b + c == a + (b + c)
  {
  }

  /** `Message::Accept`: the top-level fields, in order. */
  method AcceptMessage(m: Message, p: MessagePrinter)
    modifies p
    ensures p.depth == old(p.depth)
    ensures p.buf == old(p.buf) + RenderFields(m.fields, old(p.depth))
  {
    AcceptFields(m.fields, p);
  }

  /** A fresh printer, one pass over the message, then its text. */
  method Print(m: Message) returns (text: string)
    ensures text == RenderMessage(m)
  {
    var printer := new MessagePrinter();
    AcceptMessage(m, printer);
    text := printer.AsString();
  }
}
