/** The list of fields a transcript may be written to, derived from the
    object metadata the host delivers: every field that is updateable,
    text-typed and not compound, as a `{label, value}` option for the
    field selector. */
module FieldMetadata {

  /** What the metadata says about one field of the record's object. */
  datatype FieldInfo = FieldInfo(displayLabel: string, dataType: string, updateable: bool, compound: bool)

  /** One `name -> info` entry of the metadata's field map, in key order. */
  datatype FieldEntry = FieldEntry(name: string, info: FieldInfo)

  /** An option of the field selector: its `label` (shown) and its `value` (the field name). */
  datatype FieldOption = FieldOption(displayLabel: string, value: string)

  /** The data types that hold plain or formatted text. */
  const TextTypes: seq<string> := ["String", "TextArea", "LongTextArea", "RichText"]

  /** The filter condition: a field the transcript can be written into.
      Compound fields (an address made of parts) are excluded. */
  predicate Editable(info: FieldInfo)
  {
    info.updateable && info.dataType in TextTypes && !info.compound
  }

  /** The option a kept entry is projected to. */
  function OptionOf(e: FieldEntry): FieldOption
  {
    FieldOption(e.info.displayLabel, e.name)
  }

  /** `o` is the option of some editable entry. */
  predicate FromEditable(entries: seq<FieldEntry>, o: FieldOption)
  {
    exists e :: e in entries && Editable(e.info) && o == OptionOf(e)
  }

  /** Filter-then-map over the entries, fused into one pass. Every option
      comes from an editable entry, and there are never more options than
      entries. */
  function DeriveFields(entries: seq<FieldEntry>): (options: seq<FieldOption>)
    ensures |options| <= |entries|
    ensures forall o :: o in options ==> FromEditable(entries, o)
  {
    if entries == [] then []
    else
      var rest := DeriveFields(entries[1..]);
      assert forall o :: FromEditable(entries[1..], o) ==> FromEditable(entries, o);
      if Editable(entries[0].info) then [OptionOf(entries[0])] + rest else rest
  }

  /** Key order is preserved: deriving from two consecutive runs of entries
      gives the options of the first run followed by those of the second. */
  lemma {:induction false} DeriveFieldsAppend(a: seq<FieldEntry>, b: seq<FieldEntry>)
    ensures DeriveFields(a + b) == DeriveFields(a) + DeriveFields(b)
  {
    if a == [] {
      assert a + b == b;
    } else {
      assert (a + b)[1..] == a[1..] + b;
      DeriveFieldsAppend(a[1..], b);
    }
  }

  /** A single entry yields its option exactly when it is editable. */
  lemma DeriveFieldsSingle(e: FieldEntry)
    ensures DeriveFields([e]) == if Editable(e.info) then [OptionOf(e)] else []
  {
  }

  /** Completeness: every editable entry's option is in the derived list. */
  lemma {:induction false} DeriveFieldsComplete(entries: seq<FieldEntry>, k: nat)
    requires k < |entries| && Editable(entries[k].info)
    ensures OptionOf(entries[k]) in DeriveFields(entries)
  {
    if k > 0 {
      DeriveFieldsComplete(entries[1..], k - 1);
    }
  }

  /** The derived list holds exactly the options of the editable entries. */
  lemma {:induction false} DeriveFieldsMembership(entries: seq<FieldEntry>, o: FieldOption)
    ensures o in DeriveFields(entries) <==>
            exists k :: 0 <= k < |entries| && Editable(entries[k].info) && o == OptionOf(entries[k])
  {
    var options := DeriveFields(entries);
    if o in options {
      var e :| e in entries && Editable(e.info) && o == OptionOf(e);
      var k :| 0 <= k < |entries| && entries[k] == e;
      assert Editable(entries[k].info) && o == OptionOf(entries[k]);
    }
    if exists k :: 0 <= k < |entries| && Editable(entries[k].info) && o == OptionOf(entries[k]) {
      var k :| 0 <= k < |entries| && Editable(entries[k].info) && o == OptionOf(entries[k]);
      DeriveFieldsComplete(entries, k);
    }
  }
}
