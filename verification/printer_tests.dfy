/**
 * The three printer scenarios of the message printer's test fixture, each built
 * the way the fixture builds it and printed by a fresh printer.
 */
module PrinterScenarios {
  import opened Wrappers
  import opened Messaging
  import opened Rendering
  import opened Printer
  import opened Decimal

  const OnOff := BoolField(BoolDescriptor("On/Off"), false)
  const Name := StringField(StringDescriptor("Name"), "foobar")
  const Id := IntegerField(IntegerDescriptor("Id", UInt32, None, []), 42)
  const Count := IntegerField(IntegerDescriptor("Count", UInt8, Some(-3), []), 4)
  const Delta := IntegerField(IntegerDescriptor("Delta", Int8, Some(1), []), 10)
  const Rate := IntegerField(IntegerDescriptor("Rate", Int16, Some(-1), []), 10)

  /** Six scalar fields, three of them scaled. */
  function SimpleMessage(): Message
  {
    Message([OnOff, Name, Id, Count, Delta, Rate])
  }

  const State := IntegerDescriptor("State", UInt8, None,
                                   [Label("auto", 2), Label("off", 0), Label("on", 1)])

  /** The labels of `State` have the shape a map keyed by label text gives them. */
  lemma StateLabelsFromMap()
    ensures LabelsFromMap(State.labels)
  {
    var l := State.labels;
    assert TextBefore(l[0].text, l[1].text) by { assert l[0].text[..0] == l[1].text[..0]; }
    assert TextBefore(l[0].text, l[2].text) by { assert l[0].text[..0] == l[2].text[..0]; }
    assert TextBefore(l[1].text, l[2].text) by { assert l[1].text[..1] == l[2].text[..1]; }
  }

  /** One labelled descriptor shared by three fields. */
  function LabeledMessage(): Message
  {
    Message([IntegerField(State, 0), IntegerField(State, 1), IntegerField(State, 2)])
  }

  const NameDesc := StringDescriptor("Name")
  const FemaleDesc := BoolDescriptor("Female")
  const AgeDesc := IntegerDescriptor("Age", UInt8, None, [])
  const Person := GroupDescriptor("Person", [StringDesc(NameDesc), BoolDesc(FemaleDesc), IntegerDesc(AgeDesc)])
  const Lisa := GroupField(Person, [StringField(NameDesc, "Lisa"), BoolField(FemaleDesc, true), IntegerField(AgeDesc, 21)])
  const Simon := GroupField(Person, [StringField(NameDesc, "Simon"), BoolField(FemaleDesc, false), IntegerField(AgeDesc, 26)])

  /** Two occurrences of the same group, one group field each. */
  function NestedMessage(): Message
  {
    Message([Lisa, Simon])
  }

  lemma PlainLines()
    ensures RenderField(OnOff, 0) == "On/Off: false\n"
    ensures RenderField(Name, 0) == "Name: foobar\n"
    ensures RenderField(Id, 0) == "Id: 42\n"
  {
  }

  /** The decimal texts the scaled fields need. */
  lemma ScaleDigits()
    ensures IntToDecimal(4) == "4" && IntToDecimal(10) == "10"
    ensures IntToDecimal(1) == "1" && IntToDecimal(-1) == "-1" && IntToDecimal(-3) == "-3"
  {
    assert IntToDecimal(-3) == "-" + "3";
    assert IntToDecimal(-1) == "-" + "1";
  }

  lemma CountLine()
    ensures RenderField(Count, 0) == "Count: 4 x 10 ^ -3\n"
  {
    ScaleDigits();
  }

  lemma DeltaLine()
    ensures RenderField(Delta, 0) == "Delta: 10 x 10 ^ 1\n"
  {
    ScaleDigits();
  }

  lemma RateLine()
    ensures RenderField(Rate, 0) == "Rate: 10 x 10 ^ -1\n"
  {
    ScaleDigits();
  }

  lemma PlainHalf()
    ensures RenderFields([OnOff, Name, Id], 0) == "On/Off: false\n" + "Name: foobar\n" + "Id: 42\n"
  {
    PlainLines();
    ThreeFields([OnOff, Name, Id], 0);
  }

  lemma ScaledHalf()
    ensures RenderFields([Count, Delta, Rate], 0)
         == "Count: 4 x 10 ^ -3\n" + "Delta: 10 x 10 ^ 1\n" + "Rate: 10 x 10 ^ -1\n"
  {
    CountLine();
    DeltaLine();
    RateLine();
    ThreeFields([Count, Delta, Rate], 0);
  }

  lemma SimpleRender()
    ensures RenderMessage(SimpleMessage())
         == "On/Off: false\n" + "Name: foobar\n" + "Id: 42\n" + "Count: 4 x 10 ^ -3\n"
          + "Delta: 10 x 10 ^ 1\n" + "Rate: 10 x 10 ^ -1\n"
  {
    PlainHalf();
    ScaledHalf();
    assert SimpleMessage().fields == [OnOff, Name, Id] + [Count, Delta, Rate];
    RenderFieldsAppend([OnOff, Name, Id], [Count, Delta, Rate], 0);
    Assoc33("On/Off: false\n", "Name: foobar\n", "Id: 42\n",
            "Count: 4 x 10 ^ -3\n", "Delta: 10 x 10 ^ 1\n", "Rate: 10 x 10 ^ -1\n");
  }

  /** Regrouping of concatenations, stated once so the solver need not rediscover it. */
  lemma Assoc33(a: string, b: string, c: string, d: string, e: string, f: string)
    ensures (a + b + c) + (d + e + f) == a + b + c + d + e + f
  {
  }

  lemma LabeledLines()
    ensures RenderField(IntegerField(State, 0), 0) == "State: off\n"
    ensures RenderField(IntegerField(State, 1), 0) == "State: on\n"
    ensures RenderField(IntegerField(State, 2), 0) == "State: auto\n"
  {
    LabelWins(State, 0, 1);
    LabelWins(State, 1, 2);
    LabelWins(State, 2, 0);
  }

  lemma LabeledRender()
    ensures RenderMessage(LabeledMessage()) == "State: off\n" + "State: on\n" + "State: auto\n"
  {
    LabeledLines();
  }

  /** A top-level "Person" occurrence whose three child lines are known. */
  lemma PersonText(p: Field, name: string, female: string, age: string)
    requires p.GroupField? && p.groupDescriptor.name == "Person" && |p.fields| == 3
    requires RenderField(p.fields[0], 1) == name
    requires RenderField(p.fields[1], 1) == female
    requires RenderField(p.fields[2], 1) == age
    ensures RenderField(p, 0) == "Person {\n" + name + female + age + "}\n"
  {
    ThreeFields(p.fields, 1);
    GroupText(p.groupDescriptor, p.fields, 0);
    assert Indent(0) == [];
    PersonGlue(name, female, age);
  }

  /** The literal pieces of a depth-0 "Person" block regrouped into the expected text; a solver aid. */
  lemma PersonGlue(name: string, female: string, age: string)
    ensures ([] + "Person" + " {\n") + (name + female + age) + ([] + "}\n")
         == "Person {\n" + name + female + age + "}\n"
  {
    assert [] + "Person" + " {\n" == "Person {\n";
    assert [] + "}\n" == "}\n";
    Assoc5("Person {\n", name, female, age, "}\n");
  }

  /** Regrouping of concatenations, stated once so the solver need not rediscover it. */
  lemma Assoc5(a: string, b: string, c: string, d: string, e: string)
    ensures a + (b + c + d) + e == a + b + c + d + e
  {
  }

  lemma ThreeFields(fs: seq<Field>, depth: nat)
    requires |fs| == 3
    ensures RenderFields(fs, depth) == RenderField(fs[0], depth) + RenderField(fs[1], depth) + RenderField(fs[2], depth)
  {
    RenderFieldsSnoc(fs[..2], fs[2], depth);
    RenderFieldsSnoc(fs[..1], fs[1], depth);
    RenderFieldsSnoc([], fs[0], depth);
    assert fs == fs[..2] + [fs[2]];
    assert fs[..2] == fs[..1] + [fs[1]];
    assert fs[..1] == [] + [fs[0]];
  }

  lemma LisaChildren()
    ensures RenderField(Lisa.fields[0], 1) == "  Name: Lisa\n"
    ensures RenderField(Lisa.fields[1], 1) == "  Female: true\n"
    ensures RenderField(Lisa.fields[2], 1) == "  Age: 21\n"
  {
    assert Indent(1) == "  ";
  }

  lemma LisaText()
    ensures RenderField(Lisa, 0)
         == "Person {\n" + "  Name: Lisa\n" + "  Female: true\n" + "  Age: 21\n" + "}\n"
  {
    LisaChildren();
    PersonText(Lisa, "  Name: Lisa\n", "  Female: true\n", "  Age: 21\n");
  }

  lemma SimonChildren()
    ensures RenderField(Simon.fields[0], 1) == "  Name: Simon\n"
    ensures RenderField(Simon.fields[1], 1) == "  Female: false\n"
    ensures RenderField(Simon.fields[2], 1) == "  Age: 26\n"
  {
    assert Indent(1) == "  ";
  }

  lemma SimonText()
    ensures RenderField(Simon, 0)
         == "Person {\n" + "  Name: Simon\n" + "  Female: false\n" + "  Age: 26\n" + "}\n"
  {
    SimonChildren();
    PersonText(Simon, "  Name: Simon\n", "  Female: false\n", "  Age: 26\n");
  }

  lemma NestedRender()
    ensures RenderMessage(NestedMessage())
         == "Person {\n" + "  Name: Lisa\n" + "  Female: true\n" + "  Age: 21\n" + "}\n"
          + "Person {\n" + "  Name: Simon\n" + "  Female: false\n" + "  Age: 26\n" + "}\n"
  {
    LisaText();
    SimonText();
  }

  /** testSimplePrinter: a fresh printer accepts the message and its text is read. */
  method SimplePrinter() returns (text: string)
    ensures text == "On/Off: false\n" + "Name: foobar\n" + "Id: 42\n" + "Count: 4 x 10 ^ -3\n"
                  + "Delta: 10 x 10 ^ 1\n" + "Rate: 10 x 10 ^ -1\n"
  {
    var printer := new MessagePrinter();
    AcceptMessage(SimpleMessage(), printer);
    text := printer.AsString();
    SimpleRender();
  }

  /** testLabeledPrinter. */
  method LabeledPrinter() returns (text: string)
    ensures text == "State: off\n" + "State: on\n" + "State: auto\n"
  {
    var printer := new MessagePrinter();
    AcceptMessage(LabeledMessage(), printer);
    text := printer.AsString();
    LabeledRender();
  }

  /** testNestedPrinter. */
  method NestedPrinter() returns (text: string)
    ensures text == "Person {\n" + "  Name: Lisa\n" + "  Female: true\n" + "  Age: 21\n" + "}\n"
                  + "Person {\n" + "  Name: Simon\n" + "  Female: false\n" + "  Age: 26\n" + "}\n"
  {
    var printer := new MessagePrinter();
    AcceptMessage(NestedMessage(), printer);
    text := printer.AsString();
    NestedRender();
  }
}
