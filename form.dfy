/// The extraction form: its local copy of the fields, the single-entry edit it
/// reports to the page, the icon shown for a field's type, and the empty-list
/// message.
module Form {
  import opened Js
  import opened Extraction

  /** The two keys an input of the form edits. */
  datatype FieldKey = LabelKey | ValueKey

  datatype Icon = TextIcon | ImageIcon | PenToolIcon | StampIcon

  /** The icon for a field's `type`: the image icon for `logo`, the pen for
      `signature`, the stamp for `stamp`, and the text icon for any other type
      or none. */
  function TypeIcon(fieldType: Option<string>): (icon: Icon)
    ensures icon == ImageIcon <==> fieldType == Some("logo")
    ensures icon == PenToolIcon <==> fieldType == Some("signature")
    ensures icon == StampIcon <==> fieldType == Some("stamp")
    ensures icon == TextIcon <==> fieldType !in {Some("logo"), Some("signature"), Some("stamp")}
  {
    match fieldType
    case Some("logo") => ImageIcon
    case Some("signature") => PenToolIcon
    case Some("stamp") => StampIcon
    case _ => TextIcon
  }

  /** `{ ...field, [key]: value }`. */
  function WithKey(field: ExtractedField, key: FieldKey, value: string): ExtractedField {
    match key
    case LabelKey => field.(labelText := value)
    case ValueKey => field.(value := value)
  }

  /** The key's current text in a field. */
  function KeyText(field: ExtractedField, key: FieldKey): string {
    match key
    case LabelKey => field.labelText
    case ValueKey => field.value
  }

  /** The list after editing one key of the entry at `index`: as many fields,
      every other entry the same, and in the edited one only that key changed. */
  function EditField(fields: seq<ExtractedField>, index: nat, key: FieldKey, value: string): (edited: seq<ExtractedField>)
    requires index < |fields|
    ensures |edited| == |fields|
    ensures forall k :: 0 <= k < |fields| && k != index ==> edited[k] == fields[k]
    ensures KeyText(edited[index], key) == value
    ensures var f, e := fields[index], edited[index];
      && e.fieldType == f.fieldType && e.position == f.position
      && e.confidence == f.confidence && e.boundingBox == f.boundingBox
      && (key == LabelKey ==> e.value == f.value)
      && (key == ValueKey ==> e.labelText == f.labelText)
  {
    fields[index := WithKey(fields[index], key, value)]
  }

  /** Typing the old text back undoes an edit. */
  lemma EditUndo(fields: seq<ExtractedField>, index: nat, key: FieldKey, value: string)
    requires index < |fields|
    ensures EditField(EditField(fields, index, key, value), index, key, KeyText(fields[index], key)) == fields
  {
    var edited := EditField(fields, index, key, value);
    var back := EditField(edited, index, key, KeyText(fields[index], key));
    assert back[index] == fields[index];
    assert forall k :: 0 <= k < |fields| ==> back[k] == fields[k];
  }

  /** Only the last of two edits of the same key of the same entry counts. */
  lemma EditOverwrites(fields: seq<ExtractedField>, index: nat, key: FieldKey, first: string, second: string)
    requires index < |fields|
    ensures EditField(EditField(fields, index, key, first), index, key, second) == EditField(fields, index, key, second)
  {
    var twice := EditField(EditField(fields, index, key, first), index, key, second);
    var once := EditField(fields, index, key, second);
    assert twice[index] == once[index];
    assert forall k :: 0 <= k < |fields| ==> twice[k] == once[k];
  }

  /** Edits of different entries commute. */
  lemma EditsCommute(fields: seq<ExtractedField>, i: nat, ki: FieldKey, vi: string, j: nat, kj: FieldKey, vj: string)
    requires i < |fields| && j < |fields| && i != j
    ensures EditField(EditField(fields, i, ki, vi), j, kj, vj) == EditField(EditField(fields, j, kj, vj), i, ki, vi)
  {
  }

  class ExtractionForm {
    /** The `data` prop: the extraction the page passes in on each render. */
    var data: Extraction
    var formData: seq<ExtractedField>

    /** The form's list is the fields of the extraction it is shown for. */
    ghost predicate Synced()
      reads this
    {
      data.data.extractedFields == Some(formData)
    }

    /** The form starts from the extraction's fields. */
    constructor(data: Extraction)
      requires data.data.extractedFields.Some?
      ensures this.data == data && formData == data.data.extractedFields.value
      ensures Synced()
    {
      this.data := data;
      formData := data.data.extractedFields.value;
    }

    /** A render with a new `data` prop. The page renders the form without a
        `key`, so the component is not remounted and `useState` keeps the list
        it was first given: the prop changes and the form's list does not. */
    method ReceiveData(newData: Extraction)
      modifies this`data
      ensures data == newData && formData == old(formData)
    {
      data := newData;
    }

    /** A render with a new `data` prop when the form is keyed by the
        extraction's id: another extraction remounts the form, which starts
        again from that extraction's fields, while the page passing back the
        form's own update keeps the list. */
    method ReceiveDataKeyed(newData: Extraction)
      requires newData.id != data.id ==> newData.data.extractedFields.Some?
      modifies this`data, this`formData
      ensures data == newData
      ensures newData.id != old(data.id) ==> formData == newData.data.extractedFields.value && Synced()
      ensures newData.id == old(data.id) ==> formData == old(formData)
    {
      if newData.id != data.id {
        formData := newData.data.extractedFields.value;
      }
      data := newData;
    }

    /** `handleChange`: the edited list becomes the form's state, and `onUpdate`
        gets the same extraction with that list as its `extractedFields`. When
        the list is the shown extraction's fields, the update is that
        extraction with one entry edited. */
    method HandleChange(index: nat, key: FieldKey, value: string) returns (update: Extraction)
      requires index < |formData|
      modifies this`formData
      ensures formData == EditField(old(formData), index, key, value)
      ensures update == Extraction(data.id, data.data.(extractedFields := Some(formData)))
      ensures old(Synced()) ==>
        update == Extraction(data.id, data.data.(extractedFields := Some(EditField(data.data.extractedFields.value, index, key, value))))
    {
      var updated := formData[index := WithKey(formData[index], key, value)];
      formData := updated;
      update := Extraction(data.id, data.data.(extractedFields := Some(updated)));
    }

    /** Whether "No fields extracted" is shown: exactly when the form's list
        is empty, that is, when a result with these fields exports no rows. */
    function ShowsNoFieldsMessage(): (shown: bool)
      reads this
      ensures shown <==> ExportRows(data.data.(extractedFields := Some(formData))) == []
    {
      |formData| == 0
    }
  }

  /** A result holding only `fields`. */
  function ResultWith(fields: seq<ExtractedField>): ExtractionResult {
    ExtractionResult(None, Some(fields), None, None, None, None, "", None, None)
  }

  function SampleField(labelText: string, value: string): ExtractedField {
    ExtractedField(labelText, value, None, None, 1.0, None)
  }

  /** As written, a second extraction does not reach the form: after the
      extraction "1" with the field `Total`, then the extraction "2" with the
      field `Name`, editing the first entry sends the page extraction "2"
      holding the edited `Total` field, and `Name` is lost. */
  method StaleFormEditsOldFields() returns (update: Extraction)
    ensures update.id == "2"
    ensures update.data.extractedFields == Some([SampleField("Total", "x")])
  {
    var form := new ExtractionForm(Extraction("1", ResultWith([SampleField("Total", "10")])));
    form.ReceiveData(Extraction("2", ResultWith([SampleField("Name", "Ann")])));
    assert form.formData == [SampleField("Total", "10")];
    update := form.HandleChange(0, ValueKey, "x");
    assert form.formData[0] == SampleField("Total", "x");
    assert form.formData == [SampleField("Total", "x")];
  }

  /** Keyed by id, the same steps edit the second extraction's own field. */
  method KeyedFormEditsNewFields() returns (update: Extraction)
    ensures update.id == "2"
    ensures update.data.extractedFields == Some([SampleField("Name", "x")])
  {
    var form := new ExtractionForm(Extraction("1", ResultWith([SampleField("Total", "10")])));
    form.ReceiveDataKeyed(Extraction("2", ResultWith([SampleField("Name", "Ann")])));
    assert form.formData == [SampleField("Name", "Ann")];
    update := form.HandleChange(0, ValueKey, "x");
    assert form.formData[0] == SampleField("Name", "x");
    assert form.formData == [SampleField("Name", "x")];
  }
}
