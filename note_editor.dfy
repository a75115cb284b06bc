/**
 * The note editor: a form holding a working copy of the selected note's fields, the tag and
 * link list editors, the save action that rebuilds the note record, and the insertion of an
 * assistant answer into the content.
 */
module NoteEditor {
  import opened Wrappers
  import opened Text
  import opened Seqs
  import opened Notes
  import opened SupabaseNotes

  /** The tag list after "add tag" with input `raw`: its trimmed form, if new and non-blank. */
  function WithTag(tags: seq<string>, raw: string): seq<string> {
    var t := Trim(raw);
    if t != [] && t !in tags then tags + [t] else tags
  }

  /** "Add tag" accepts the input exactly when its trimmed form is non-blank and not yet a tag. */
  predicate TagAccepted(tags: seq<string>, raw: string) {
    Trim(raw) != [] && Trim(raw) !in tags
  }

  /**
   * `availableNotes`: the notes that may still be linked, i.e. all notes except the edited
   * one (`current`, absent when nothing is edited) and those already linked.
   */
  function AvailableNotes(all: seq<SupabaseNote>, current: Option<string>, links: seq<string>)
    : seq<SupabaseNote>
  {
    Filter(all, (n: SupabaseNote) => (current.None? || n.id != current.value) && n.id !in links)
  }

  /** The record `handleSave` emits: the original note with the form's fields written over it. */
  function SavedRecord(note: SupabaseNote, title: string, content: string, folder: string,
                       status: Status, tags: seq<string>, links: seq<string>): SupabaseNote
  {
    note.(title := title, content := content, folder := folder, status := status,
          tags := tags, links := links)
  }

  /** Adding a tag adds exactly its trimmed form when accepted, and nothing otherwise. */
  lemma WithTagSpec(tags: seq<string>, raw: string)
    ensures TagAccepted(tags, raw) ==> WithTag(tags, raw) == tags + [Trim(raw)]
    ensures !TagAccepted(tags, raw) ==> WithTag(tags, raw) == tags
    ensures forall x :: x in WithTag(tags, raw) <==> x in tags || (x == Trim(raw) && x != [])
  {
  }

  /** Adding tags never creates a duplicate. */
  lemma WithTagNoDup(tags: seq<string>, raw: string)
    requires NoDup(tags)
    ensures NoDup(WithTag(tags, raw))
  {
    var t := Trim(raw);
    if t != [] && t !in tags {
      assert WithTag(tags, raw) == AppendIfAbsent(tags, t);
    }
  }

  /** Removing a tag that was just accepted restores the list. */
  lemma RemoveUndoesAddTag(tags: seq<string>, raw: string)
    requires TagAccepted(tags, raw)
    ensures RemoveAll(WithTag(tags, raw), Trim(raw)) == tags
  {
    RemoveAllAppend(tags, Trim(raw));
  }

  /** A linkable note is neither the edited note nor already linked, and every such note is offered. */
  lemma AvailableNotesSpec(all: seq<SupabaseNote>, current: Option<string>, links: seq<string>)
    ensures forall n :: n in AvailableNotes(all, current, links) <==>
      n in all && (current.None? || n.id != current.value) && n.id !in links
    ensures Subseq(AvailableNotes(all, current, links), all)
  {
  }

  /** Once a note is linked it is no longer offered; unlinking it offers it again. */
  lemma LinkingHidesNote(all: seq<SupabaseNote>, current: Option<string>, links: seq<string>,
                         n: SupabaseNote)
    requires n in AvailableNotes(all, current, links)
    ensures n !in AvailableNotes(all, current, AppendIfAbsent(links, n.id))
    ensures n in AvailableNotes(all, current, RemoveAll(AppendIfAbsent(links, n.id), n.id))
  {
    RemoveAllUndoesAppend(links, n.id);
  }

  /** A saved record differs from the original only in the six form fields. */
  lemma SavedRecordKeepsRest(note: SupabaseNote, title: string, content: string, folder: string,
                             status: Status, tags: seq<string>, links: seq<string>)
    ensures var r := SavedRecord(note, title, content, folder, status, tags, links);
      && r.id == note.id && r.userId == note.userId && r.aiGenerated == note.aiGenerated
      && r.sourceApi == note.sourceApi && r.createdAt == note.createdAt
      && r.updatedAt == note.updatedAt
      && r.title == title && r.content == content && r.folder == folder
      && r.status == status && r.tags == tags && r.links == links
    ensures SavedRecord(note, note.title, note.content, note.folder, note.status, note.tags,
                        note.links) == note
  {
  }

  /** The editor's form state. */
  class Editor {
    var note: Option<SupabaseNote>
    var isEditing: bool
    var title: string
    var content: string
    var folder: string
    var status: Status
    var tags: seq<string>
    var newTag: string
    var links: seq<string>
    var showLinkSelector: bool
    var showAIAssistant: bool
    var aiQuery: string
    var aiLoading: bool
    var aiResult: string
    var aiError: string
    var aiEdit: string

    /** The form before any note is loaded. */
    constructor ()
      ensures note == None && !isEditing && title == [] && content == [] && folder == "Arrays"
      ensures status == InProgress && tags == [] && newTag == [] && links == []
      ensures !showLinkSelector && !showAIAssistant && !aiLoading
      ensures aiQuery == [] && aiResult == [] && aiError == [] && aiEdit == []
    {
      note := None;
      isEditing := false;
      title, content, folder, status := [], [], "Arrays", InProgress;
      tags, newTag, links := [], [], [];
      showLinkSelector, showAIAssistant, aiLoading := false, false, false;
      aiQuery, aiResult, aiError, aiEdit := [], [], [], [];
    }

    /**
     * The effect run when the selected note changes: a note is copied into the form and
     * editing stops; with no note the form keeps its previous contents.
     */
    method LoadNote(n: Option<SupabaseNote>)
      modifies this`note, this`title, this`content, this`folder, this`status, this`tags,
              this`links, this`isEditing
      ensures note == n
      ensures n.Some? ==> title == n.value.title && content == n.value.content
                          && folder == n.value.folder && status == n.value.status
                          && tags == n.value.tags && links == n.value.links && !isEditing
      ensures n.None? ==> title == old(title) && content == old(content)
                          && folder == old(folder) && status == old(status)
                          && tags == old(tags) && links == old(links)
                          && isEditing == old(isEditing)
      ensures newTag == old(newTag) && aiEdit == old(aiEdit)
    {
      note := n;
      if n.Some? {
        title := n.value.title;
        content := n.value.content;
        folder := n.value.folder;
        status := n.value.status;
        tags := n.value.tags;
        links := n.value.links;
        isEditing := false;
      }
    }

    /** `handleSave`: with no note nothing happens; otherwise emit the rebuilt record and stop editing. */
    method Save() returns (emitted: Option<SupabaseNote>)
      modifies this`isEditing
      ensures note == old(note) && title == old(title) && content == old(content)
      ensures tags == old(tags) && links == old(links)
      ensures note.None? ==> emitted.None? && isEditing == old(isEditing)
      ensures note.Some? ==>
        && emitted == Some(SavedRecord(note.value, title, content, folder, status, tags, links))
        && !isEditing
    {
      if note.None? {
        return None;
      }
      emitted := Some(SavedRecord(note.value, title, content, folder, status, tags, links));
      isEditing := false;
    }

    /** `handleAddTag`: append the trimmed input if accepted, and clear the input only then. */
    method AddTag()
      modifies this`tags, this`newTag
      ensures tags == WithTag(old(tags), old(newTag))
      ensures newTag == if TagAccepted(old(tags), old(newTag)) then [] else old(newTag)
      ensures links == old(links) && content == old(content)
    {
      var t := Trim(newTag);
      if t != [] && t !in tags {
        tags := tags + [t];
        newTag := [];
      }
    }

    /** `handleRemoveTag`: drop every occurrence of the tag. */
    method RemoveTag(tag: string)
      modifies this`tags
      ensures tags == RemoveAll(old(tags), tag)
      ensures links == old(links) && newTag == old(newTag)
    {
      tags := RemoveAll(tags, tag);
    }

    /** `handleAddLink`: link the note if not yet linked; always close the selector. */
    method AddLink(id: string)
      modifies this`links, this`showLinkSelector
      ensures links == AppendIfAbsent(old(links), id)
      ensures !showLinkSelector
      ensures tags == old(tags)
    {
      if id !in links {
        links := links + [id];
      }
      showLinkSelector := false;
    }

    /** `handleRemoveLink`: drop every occurrence of the id. */
    method RemoveLink(id: string)
      modifies this`links
      ensures links == RemoveAll(old(links), id)
      ensures tags == old(tags) && showLinkSelector == old(showLinkSelector)
    {
      links := RemoveAll(links, id);
    }

    /**
     * `handleAIAssist`, given the assistant's answer (`None` when the call fails): the answer
     * fills both the result and its editable copy; a failure leaves them empty and shows the
     * fixed error message. Loading is off again at the end.
     */
    method AIAssist(answer: Option<string>)
      modifies this`aiLoading, this`aiError, this`aiResult, this`aiEdit
      ensures answer.Some? ==> aiResult == answer.value && aiEdit == answer.value && aiError == []
      ensures answer.None? ==>
        aiResult == [] && aiEdit == [] && aiError == "AI se answer nahi mila. Try again!"
      ensures !aiLoading && aiQuery == old(aiQuery) && content == old(content)
    {
      aiLoading := true;
      aiError := [];
      aiResult := [];
      aiEdit := [];
      if answer.Some? {
        aiResult := answer.value;
        aiEdit := answer.value;
      } else {
        aiError := "AI se answer nahi mila. Try again!";
      }
      aiLoading := false;
    }

    /**
     * `handleInsertAIResult`: append the edited answer on a new line and reset the assistant
     * panel.
     */
    method InsertAIResult()
      modifies this`content, this`showAIAssistant, this`aiQuery, this`aiResult, this`aiEdit,
              this`aiError
      ensures content == old(content) + "\n" + old(aiEdit)
      ensures !showAIAssistant && aiQuery == [] && aiResult == [] && aiEdit == [] && aiError == []
      ensures title == old(title) && tags == old(tags) && links == old(links)
    {
      content := content + "\n" + aiEdit;
      showAIAssistant := false;
      aiQuery := [];
      aiResult := [];
      aiEdit := [];
      aiError := [];
    }
  }
}
