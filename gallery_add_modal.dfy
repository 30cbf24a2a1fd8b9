/**
 * The photo upload modal: a file picker and a description. Submitting builds the upload
 * payload from the form's entries, announces loading, uploads, and then resets the form
 * and reports success, or reports the error. Picking a file only records it for preview.
 */
module Gallery {

  import opened Wrappers
  import opened Mutation

  /** A file chosen in the picker; the model only needs its identity. */
  datatype File = File(name: string)

  /**
   * A form value as JavaScript sees it when the payload is built: a string, a `FileList`
   * from the picker, or a plain array (the picker's default `[]`), whose elements are given
   * by their `String` forms.
   */
  datatype FormValue = Text(text: string) | FileList(files: seq<File>) | ArrayValue(items: seq<string>)

  /** `Array.prototype.join(",")`. */
  function Join(items: seq<string>): (r: string)
    ensures items == [] ==> r == ""
    ensures |items| == 1 ==> r == items[0]
    ensures |items| > 1 ==> |r| >= |items[0]| + 1 && r[..|items[0]|] == items[0] && r[|items[0]|] == ','
  {
    if |items| == 0 then ""
    else if |items| == 1 then items[0]
    else items[0] + "," + Join(items[1..])
  }

  /** `String(v)`. */
  function Stringify(v: FormValue): string
  {
    match v
    case Text(s) => s
    case FileList(_) => "[object FileList]"
    case ArrayValue(items) => Join(items)
  }

  /** One entry appended to the upload's `FormData`. */
  datatype Part = FilePart(name: string, file: File) | StringPart(name: string, value: string)

  /** The entry appended for the form field `key` holding `v`. */
  function EntryPart(key: string, v: FormValue): (p: Part)
    ensures p.name == key
    ensures p.FilePart? <==> v.FileList? && |v.files| != 0
    ensures p.FilePart? ==> p.file == v.files[0]
    ensures p.StringPart? ==> p.value == Stringify(v)
  {
    if v.FileList? && |v.files| != 0 then FilePart(key, v.files[0]) else StringPart(key, Stringify(v))
  }

  /**
   * The `forEach` over `Object.entries(data)` that fills the `FormData`: exactly one
   * appended entry per form field, in entry order.
   */
  method BuildPayload(entries: seq<(string, FormValue)>) returns (parts: seq<Part>)
    ensures |parts| == |entries|
    ensures forall i :: 0 <= i < |entries| ==> parts[i] == EntryPart(entries[i].0, entries[i].1)
  {
    parts := [];
    for i := 0 to |entries|
      invariant |parts| == i
      invariant forall j :: 0 <= j < i ==> parts[j] == EntryPart(entries[j].0, entries[j].1)
    {
      var (k, v) := entries[i];
      if v.FileList? && |v.files| != 0 {
        parts := parts + [FilePart(k, v.files[0])];
      } else {
        parts := parts + [StringPart(k, Stringify(v))];
      }
    }
  }

  /** The form's values. */
  datatype GalleryFields = GalleryFields(description: string, file: FormValue)

  /** `defaultValues`: an empty description and an empty file array. */
  const DefaultFields: GalleryFields := GalleryFields("", ArrayValue([]))

  /** `Object.entries(data)`, in the fields' order. */
  function Entries(f: GalleryFields): seq<(string, FormValue)>
  {
    [("description", Text(f.description)), ("file", f.file)]
  }

  /** The one write of this form. */
  datatype Request = AddImage(payload: seq<Part>)

  const UploadLoadingTitle: string := "Loading mengunggah foto"
  const UploadSuccessTitle: string := "Sukses mengunggah foto"
  const UploadErrorTitle: string := "Error mengunggah foto"
  const PickErrorTitle: string := "Error tipe file"
  const PickErrorMessage: string := "File bukan bertipe gambar"

  /** On success the form is reset first, then `onSubmited("add", ...)` is called. */
  const UploadedSteps: seq<Event<Request>> := [FormReset, Submitted(Add, UploadSuccessTitle)]

  /**
   * The callbacks of one submit: nothing when validation fails (the file is required),
   * otherwise `onLoading("add")`, the upload of `payload`, then a reset followed by
   * `onSubmited`, or one `onError("add", ...)` without a reset.
   */
  function UploadTrace(payload: seq<Part>, valid: bool, outcome: Outcome): (t: seq<Event<Request>>)
    ensures !valid ==> t == []
    ensures valid ==> |t| >= 3 && t[0] == Loading(Add, UploadLoadingTitle) && t[1] == Write(AddImage(payload))
    ensures valid ==> SettleCount(t) == 1
    ensures valid && outcome.Succeeded? ==> t[2..] == [FormReset, Submitted(Add, UploadSuccessTitle)]
    ensures (FormReset in t) <==> valid && outcome.Succeeded?
    ensures HasError(t) <==> valid && outcome.Failed?
    ensures valid && outcome.Failed? ==> t[2..] == [Error(Add, UploadErrorTitle, outcome.message)]
  {
    if valid then
      assert SettleCount(UploadedSteps[1..][1..]) == 0 by { assert UploadedSteps[1..][1..] == []; }
      assert SettleCount(UploadedSteps[1..]) == 1;
      LifecycleOrder(Add, UploadLoadingTitle, AddImage(payload), UploadedSteps, UploadErrorTitle, outcome);
      Lifecycle(Add, UploadLoadingTitle, AddImage(payload), UploadedSteps, UploadErrorTitle, outcome)
    else
      []
  }

  class GalleryAddModal {
    var form: GalleryFields
    var selectedFile: Option<File>
    /** The calls made to the parent and the writes issued, oldest first. */
    var trace: seq<Event<Request>>

    constructor ()
      ensures form == DefaultFields && selectedFile == None && trace == []
    {
      form := DefaultFields;
      selectedFile := None;
      trace := [];
    }

    /**
     * Submitting the form, whose validation result is `valid`; the upload settles with
     * `outcome`. The payload is built from the form before loading is announced.
     */
    method OnSubmit(valid: bool, outcome: Outcome) returns (payload: seq<Part>)
      modifies this`form, this`trace
      ensures valid ==>
                && |payload| == 2
                && payload[0] == StringPart("description", old(form).description)
                && payload[1] == EntryPart("file", old(form).file)
      ensures trace == old(trace) + UploadTrace(payload, valid, outcome)
      ensures form == if valid && outcome.Succeeded? then DefaultFields else old(form)
    {
      payload := [];
      if valid {
        payload := BuildPayload(Entries(form));
        trace := trace + [Loading(Add, UploadLoadingTitle), Write(AddImage(payload))];
        if outcome.Succeeded? {
          form := DefaultFields;
          trace := trace + UploadedSteps;
        } else {
          trace := trace + [Error(Add, UploadErrorTitle, outcome.message)];
        }
      }
    }

    /** Typing into the description field. */
    method OnDescriptionInput(description: string)
      modifies this`form
      ensures form == old(form).(description := description)
    {
      form := form.(description := description);
    }

    /** The picker's input changing: the form's `file` value becomes the chosen `FileList`. */
    method OnFileInput(files: seq<File>)
      modifies this`form
      ensures form == old(form).(file := FileList(files))
    {
      form := form.(file := FileList(files));
    }

    /** The picker's `onPick`: an empty pick is ignored, otherwise the first file is kept. */
    method OnPick(files: seq<File>)
      modifies this`selectedFile
      ensures selectedFile == if |files| == 0 then old(selectedFile) else Some(files[0])
    {
      if |files| == 0 {
        return;
      }
      selectedFile := Some(files[0]);
    }

    /** The picker's `onErr`: an error with a fixed title and message, no loading before it. */
    method OnPickErr()
      modifies this`trace
      ensures trace == old(trace) + [Error(Add, PickErrorTitle, PickErrorMessage)]
    {
      trace := trace + [Error(Add, PickErrorTitle, PickErrorMessage)];
    }

    /** The close button: only `onCancel`. */
    method OnClose()
      modifies this`trace
      ensures trace == old(trace) + [Cancelled]
    {
      trace := trace + [Cancelled];
    }
  }

  /** A picked file with a typed description is what the upload carries. */
  method UploadPickedFile(description: string, file: File, outcome: Outcome)
    returns (payload: seq<Part>)
    ensures payload == [StringPart("description", description), FilePart("file", file)]
  {
    var m := new GalleryAddModal();
    m.OnDescriptionInput(description);
    m.OnFileInput([file]);
    m.OnPick([file]);
    payload := m.OnSubmit(true, outcome);
  }
}
