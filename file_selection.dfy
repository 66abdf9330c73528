/**
 * The local file picker of src/components/ui/file-upload.tsx: the no-network
 * variant of the document slot. It keeps no transfer list; it validates a
 * batch against the same size rule and hands the new selection to its
 * parent through `onChange`. The parent is taken to store what it is handed,
 * so the selection is a field here that `onChange` replaces.
 */
module FileSelection {
  import opened Options
  import opened FileLimits

  /**
   * `files.filter((_, i) => i !== index)`, where `pos` is the position of
   * `files[0]` in the list being filtered.
   */
  function FilterIndex(files: seq<File>, index: int, pos: int): (r: seq<File>)
    ensures pos <= index < pos + |files| ==> r == files[..index - pos] + files[index - pos + 1..]
    ensures !(pos <= index < pos + |files|) ==> r == files
    decreases |files|
  {
    if |files| == 0 then []
    else (if pos == index then [] else [files[0]]) + FilterIndex(files[1..], index, pos + 1)
  }

  /** `removeFile(index)`: exactly position `index` goes; an index outside the list changes nothing. */
  function RemoveAt(files: seq<File>, index: int): (r: seq<File>)
    ensures 0 <= index < |files| ==> |r| == |files| - 1
    ensures 0 <= index < |files| ==> forall j :: 0 <= j < |r| ==> r[j] == if j < index then files[j] else files[j + 1]
    ensures !(0 <= index < |files|) ==> r == files
  {
    FilterIndex(files, index, 0)
  }

  /** The selection an all-valid batch produces: appended in multi-file mode, replacing it otherwise. */
  function Selection(current: seq<File>, valid: seq<File>, multiple: bool): (r: seq<File>)
    ensures multiple ==> r == current + valid
    ensures !multiple ==> r <= valid && |r| == (if |valid| == 0 then 0 else 1)
  {
    if multiple then current + valid else Admit(valid, false)
  }

  /** In multi-file mode nothing already selected is lost, and the batch follows it in order. */
  lemma MultipleKeepsSelection(current: seq<File>, valid: seq<File>)
    ensures current <= Selection(current, valid, true)
    ensures Selection(current, valid, true)[|current|..] == valid
  {
  }

  /** In single-file mode the previous selection is discarded, even by an empty batch. */
  lemma SingleDiscardsSelection(a: seq<File>, b: seq<File>, valid: seq<File>)
    ensures Selection(a, valid, false) == Selection(b, valid, false)
    ensures |Selection(a, valid, false)| <= 1
    ensures valid == [] ==> Selection(a, valid, false) == []
    ensures valid != [] ==> Selection(a, valid, false) == [valid[0]]
  {
  }

  /** Removing the file just added in multi-file mode restores the previous selection. */
  lemma RemoveUndoesAdd(current: seq<File>, f: File)
    ensures RemoveAt(Selection(current, [f], true), |current|) == current
  {
    assert (current + [f])[..|current|] == current;
  }

  /** One mounted picker: its props and the `sizeError` state cell. */
  class Picker {
    const multiple: bool
    const maxSizeMB: nat
    var files: seq<File>
    var sizeError: Option<string>

    constructor (multiple: bool, maxSizeMB: nat, files: seq<File>)
      ensures this.multiple == multiple && this.maxSizeMB == maxSizeMB
      ensures this.files == files && sizeError == None
    {
      this.multiple := multiple;
      this.maxSizeMB := maxSizeMB;
      this.files := files;
      sizeError := None;
    }

    /**
     * `validateAndAdd`: a null list changes nothing; the first oversized file
     * stops the scan with its message and `onChange` is not called; otherwise
     * the error is cleared and the new selection is handed on as `changed`.
     */
    method ValidateAndAdd(incoming: Option<seq<File>>) returns (changed: Option<seq<File>>)
      modifies this
      ensures incoming.None? ==> changed == None && files == old(files) && sizeError == old(sizeError)
      ensures incoming.Some? && FirstOversize(incoming.value, MaxBytes(maxSizeMB)).Some? ==>
        && changed == None && files == old(files)
        && sizeError == Some(OversizeMessage(incoming.value[FirstOversize(incoming.value, MaxBytes(maxSizeMB)).value].name, maxSizeMB))
      ensures incoming.Some? && FirstOversize(incoming.value, MaxBytes(maxSizeMB)).None? ==>
        && sizeError == None
        && changed == Some(Selection(old(files), incoming.value, multiple))
        && files == changed.value
    {
      changed := None;
      if incoming.None? {
        return;
      }
      var batch := incoming.value;
      var maxBytes := MaxBytes(maxSizeMB);
      var valid: seq<File> := [];
      var i := 0;
      while i < |batch|
        invariant 0 <= i <= |batch|
        invariant valid == batch[..i]
        invariant AllWithin(valid, maxBytes)
        invariant files == old(files) && sizeError == old(sizeError)
      {
        if batch[i].size > maxBytes {
          FirstOversizeAt(batch, maxBytes, i);
          sizeError := Some(OversizeMessage(batch[i].name, maxSizeMB));
          return;
        }
        valid := valid + [batch[i]];
        i := i + 1;
      }
      assert valid == batch;
      sizeError := None;
      changed := Some(Selection(files, valid, multiple));
      files := changed.value;
    }

    /** `removeFile`: hand on the selection without position `index`. */
    method RemoveFile(index: int) returns (changed: seq<File>)
      modifies this
      ensures changed == RemoveAt(old(files), index) && files == changed
      ensures sizeError == old(sizeError)
    {
      changed := RemoveAt(files, index);
      files := changed;
    }
  }
}
