/**
 * The schema and the values of a message: field descriptors, message fields and
 * the message itself. Descriptors are immutable values that many fields may share.
 * Each field variant carries the descriptor of its own kind, so a Bool field can
 * only ever refer to a Bool descriptor.
 */
module Messaging {
  import opened Wrappers

  /** The integer widths the descriptors distinguish. */
  datatype IntegerKind = UInt8 | UInt16 | UInt32 | Int8 | Int16 | Int32

  /** A label substituted for one raw integer value when the field is printed. */
  datatype Label = Label(text: string, value: int)

  datatype BoolDescriptor = BoolDescriptor(name: string)

  datatype StringDescriptor = StringDescriptor(name: string)

  /**
   * An integer descriptor. `scale` is the optional power of ten the raw value is
   * multiplied by; `labels` lists the labelled values. The source keeps labels in
   * a map keyed by label text, so by convention a descriptor's labels are listed
   * with distinct texts in ascending text order (see `LabelsFromMap`); the printer
   * uses the first label whose value matches.
   */
  datatype IntegerDescriptor = IntegerDescriptor(
    name: string,
    kind: IntegerKind,
    scale: Option<int>,
    labels: seq<Label>)

  /** The shape of labels taken from a map keyed by text: distinct texts, in ascending order. */
  predicate LabelsFromMap(labels: seq<Label>)
  {
    forall i, j :: 0 <= i < j < |labels| ==> TextBefore(labels[i].text, labels[j].text)
  }

  /** Strict lexicographic order on label texts, the order of a map keyed by strings. */
  predicate TextBefore(a: string, b: string)
  {
    (|a| < |b| && a == b[..|a|])
    || (exists k :: 0 <= k < |a| && k < |b| && a[..k] == b[..k] && a[k] < b[k])
  }

  /** A group descriptor: the ordered descriptors of one occurrence's children. */
  datatype GroupDescriptor = GroupDescriptor(name: string, children: seq<Descriptor>)

  /** Any descriptor. */
  datatype Descriptor =
    | BoolDesc(boolDescriptor: BoolDescriptor)
    | StringDesc(stringDescriptor: StringDescriptor)
    | IntegerDesc(integerDescriptor: IntegerDescriptor)
    | GroupDesc(groupDescriptor: GroupDescriptor)

  /** A field value together with its descriptor; a group field holds one occurrence. */
  datatype Field =
    | BoolField(boolDescriptor: BoolDescriptor, boolValue: bool)
    | StringField(stringDescriptor: StringDescriptor, stringValue: string)
    | IntegerField(integerDescriptor: IntegerDescriptor, integerValue: int)
    | GroupField(groupDescriptor: GroupDescriptor, fields: seq<Field>)
  {
    /** The name of the field's descriptor. */
    function Name(): string
    {
      match this
      case BoolField(d, _) => d.name
      case StringField(d, _) => d.name
      case IntegerField(d, _) => d.name
      case GroupField(d, _) => d.name
    }
  }

  /** An ordered sequence of top-level fields. */
  datatype Message = Message(fields: seq<Field>)
}
