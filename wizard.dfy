/**
 * The five-step data-entry wizard: the step counter, the tag list of the
 * form, the attachment list kept beside the form, and submission, which puts
 * that attachment list into the submitted data.
 */
module DataFormWizard {
  import opened Common

  /** Basic information, details, rich content, attachments, review. */
  const StepCount: int := 5

  /** An uploaded file, known by name and size. */
  datatype File = File(name: string, size: int)

  /** The validated form values handed to `onSubmit`. */
  datatype FormData = FormData(name: string, status: string, category: string, description: string,
                               priority: string, tags: seq<string>, richContent: Option<string>,
                               attachments: Option<seq<File>>)

  /** `addTag`: a non-empty tag not yet present goes at the end. */
  function WithTag(tags: seq<string>, tag: string): (r: seq<string>)
    ensures tag in r || tag == ""
    ensures forall t :: t in r <==> t in tags || (t == tag && tag != "")
    ensures |tags| <= |r| && r[..|tags|] == tags
  {
    if tag != "" && tag !in tags then tags + [tag] else tags
  }

  /** `removeTag`: every occurrence goes, the rest keep their order. */
  function WithoutTag(tags: seq<string>, tag: string): (r: seq<string>)
    ensures tag !in r
    ensures forall t :: t in r <==> t in tags && t != tag
    ensures |r| <= |tags|
  {
    if tags == [] then []
    else (if tags[0] == tag then [] else [tags[0]]) + WithoutTag(tags[1..], tag)
  }

  /** `attachments.filter((_, i) => i !== index)`. */
  function WithoutIndex(files: seq<File>, index: int): (r: seq<File>)
    ensures 0 <= index < |files| ==> r == files[..index] + files[index + 1..]
    ensures !(0 <= index < |files|) ==> r == files
    decreases |files|
  {
    if files == [] then []
    else
      var rest := WithoutIndex(files[1..], index - 1);
      if index == 0 then
        assert files[index + 1..] == files[1..];
        rest
      else
        assert 0 <= index < |files| ==> files[1..][..index - 1] + files[1..][index..] == files[1..index] + files[index + 1..];
        assert [files[0]] + files[1..] == files;
        [files[0]] + rest
  }

  predicate NoDuplicates(tags: seq<string>) {
    forall i, j :: 0 <= i < j < |tags| ==> tags[i] != tags[j]
  }

  class Wizard {
    var step: int
    /** The component's own attachment list. */
    var attachments: seq<File>
    /** The form's `tags` field. */
    var tags: seq<string>
    /** The form's `attachments` field. */
    var formAttachments: seq<File>

    /** The step indexes one of the five steps, and the form's attachment field mirrors the list. */
    predicate Valid()
      reads this
    {
      0 <= step < StepCount && formAttachments == attachments
    }

    /** Both attachment lists start from the initial data's attachments, or none. */
    constructor (initial: FormData)
      ensures Valid() && step == 0 && tags == initial.tags
      ensures attachments == (if initial.attachments.Some? then initial.attachments.value else [])
    {
      step := 0;
      tags := initial.tags;
      attachments := initial.attachments.GetOr([]);
      formAttachments := initial.attachments.GetOr([]);
    }

    /** `nextStep`: a no-op on the last step. */
    method NextStep()
      requires Valid()
      modifies this
      ensures Valid() && attachments == old(attachments) && tags == old(tags)
      ensures step == if old(step) < StepCount - 1 then old(step) + 1 else old(step)
    {
      if step < StepCount - 1 {
        step := step + 1;
      }
    }

    /** `prevStep`: a no-op on the first step. */
    method PrevStep()
      requires Valid()
      modifies this
      ensures Valid() && attachments == old(attachments) && tags == old(tags)
      ensures step == if old(step) > 0 then old(step) - 1 else old(step)
    {
      if step > 0 {
        step := step - 1;
      }
    }

    /** `addTag`. */
    method AddTag(tag: string)
      requires Valid()
      modifies this
      ensures Valid() && tags == WithTag(old(tags), tag)
      ensures step == old(step) && attachments == old(attachments)
    {
      if tag != "" && tag !in tags {
        tags := tags + [tag];
      }
    }

    /** `removeTag`. */
    method RemoveTag(tag: string)
      requires Valid()
      modifies this
      ensures Valid() && tags == WithoutTag(old(tags), tag)
      ensures step == old(step) && attachments == old(attachments)
    {
      tags := WithoutTag(tags, tag);
    }

    /** `removeAttachment`: both lists lose position `index`. */
    method RemoveAttachment(index: int)
      requires Valid()
      modifies this
      ensures Valid() && attachments == WithoutIndex(old(attachments), index)
      ensures step == old(step) && tags == old(tags)
    {
      var remaining := WithoutIndex(attachments, index);
      attachments := remaining;
      formAttachments := remaining;
    }

    /** `handleFileUpload`: the chosen files go after the existing ones, in both lists. */
    method HandleFileUpload(files: seq<File>)
      requires Valid()
      modifies this
      ensures Valid() && attachments == old(attachments) + files
      ensures step == old(step) && tags == old(tags)
    {
      formAttachments := attachments + files;
      attachments := attachments + files;
    }

    /** `onFormSubmit`: the submitted data carries the wizard's attachment list. */
    method Submit(data: FormData) returns (submitted: FormData)
      requires Valid()
      ensures submitted == data.(attachments := Some(attachments))
    {
      submitted := data.(attachments := Some(attachments));
    }
  }

  // ---------------------------------------------------------------------------
  // Properties

  /** Adding and removing tags keeps a duplicate-free tag list duplicate-free. */
  lemma TagOperationsKeepNoDuplicates(tags: seq<string>, tag: string)
    requires NoDuplicates(tags)
    ensures NoDuplicates(WithTag(tags, tag))
    ensures NoDuplicates(WithoutTag(tags, tag))
  {
    WithoutTagNoDuplicates(tags, tag);
  }

  lemma {:induction false} WithoutTagNoDuplicates(tags: seq<string>, tag: string)
    requires NoDuplicates(tags)
    ensures NoDuplicates(WithoutTag(tags, tag))
  {
    if tags != [] {
      WithoutTagNoDuplicates(tags[1..], tag);
      var rest := WithoutTag(tags[1..], tag);
      if tags[0] != tag {
        var r := [tags[0]] + rest;
        forall i, j | 0 <= i < j < |r|
          ensures r[i] != r[j]
        {
          if i == 0 {
            assert r[j] in tags[1..];
          }
        }
      }
    }
  }

  /** Removal distributes over concatenation, so the remaining tags keep their order. */
  lemma {:induction false} WithoutTagAppend(a: seq<string>, b: seq<string>, tag: string)
    ensures WithoutTag(a + b, tag) == WithoutTag(a, tag) + WithoutTag(b, tag)
  {
    if a != [] {
      assert (a + b)[1..] == a[1..] + b;
      WithoutTagAppend(a[1..], b, tag);
    } else {
      assert a + b == b;
    }
  }

  lemma {:induction false} WithoutTagAbsent(tags: seq<string>, tag: string)
    requires tag !in tags
    ensures WithoutTag(tags, tag) == tags
  {
    if tags != [] {
      WithoutTagAbsent(tags[1..], tag);
      assert [tags[0]] + tags[1..] == tags;
    }
  }

  /** Removing a tag that was just added restores the tag list. */
  lemma RemoveUndoesAdd(tags: seq<string>, tag: string)
    requires tag !in tags
    ensures WithoutTag(WithTag(tags, tag), tag) == tags
  {
    WithoutTagAbsent(tags, tag);
    if tag != "" {
      WithoutTagAppend(tags, [tag], tag);
      assert WithoutTag([tag], tag) == [];
      assert tags + [] == tags;
    }
  }

  /** Removing an attachment leaves one fewer, with those after it moved up by one. */
  lemma RemoveAttachmentShifts(files: seq<File>, index: int)
    requires 0 <= index < |files|
    ensures var r := WithoutIndex(files, index);
      && |r| == |files| - 1
      && (forall k :: 0 <= k < index ==> r[k] == files[k])
      && (forall k :: index <= k < |r| ==> r[k] == files[k + 1])
  {
  }
}
