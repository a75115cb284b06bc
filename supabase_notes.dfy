/**
 * The local bookkeeping of the persisted note store. Each operation first makes a remote
 * call, whose outcome is a parameter here, and touches the local list and selection only
 * when that call succeeds. Unlike the in-memory store it prepends new notes and does not
 * mirror links on update.
 */
module SupabaseNotes {
  import opened Wrappers
  import opened Notes

  /** A row of the `notes` table. */
  datatype SupabaseNote = SupabaseNote(id: string, title: string, content: string,
                                       tags: seq<string>, folder: string, status: Status,
                                       links: seq<string>, aiGenerated: bool,
                                       sourceApi: Option<string>, createdAt: string,
                                       updatedAt: string, userId: string)

  /** What an `insert ... select ... single` call returns: the stored row's id and dates, or an error. */
  datatype InsertOutcome = Inserted(id: string, at: string) | InsertFailed

  /** What the `select` of `fetchNotes` returns: rows (possibly null) newest first, or an error. */
  datatype FetchOutcome = Fetched(rows: Option<seq<SupabaseNote>>) | FetchFailed

  /** The row `createNote(folder)` asks to insert, as stored under the returned id and date. */
  function BlankRow(folder: string, userId: string, id: string, at: string): SupabaseNote {
    SupabaseNote(id, "Untitled Note", "# New Note\n\nStart writing your notes here...", [],
                 folder, InProgress, [], false, None, at, at, userId)
  }

  /** The row `createAINote(title, content, folder, sourceApi)` asks to insert, as stored. */
  function AIRow(title: string, content: string, folder: string, sourceApi: string,
                 userId: string, id: string, at: string): SupabaseNote {
    SupabaseNote(id, title, content, ["ai-generated"], folder, InProgress, [], true,
                 Some(sourceApi), at, at, userId)
  }

  /** The local `map` after a successful update: the row with that id becomes the update. */
  function ReplaceRow(notes: seq<SupabaseNote>, u: SupabaseNote, now: string): (r: seq<SupabaseNote>)
    ensures |r| == |notes|
  {
    seq(|notes|, i requires 0 <= i < |notes| =>
          if notes[i].id == u.id then u.(updatedAt := now) else notes[i])
  }

  /** The local `filter` after a successful delete. */
  function DropRow(notes: seq<SupabaseNote>, x: string): seq<SupabaseNote> {
    Seqs.Filter(notes, (n: SupabaseNote) => n.id != x)
  }

  /** Links are bidirectional: `a` links `b` exactly when `b` links `a`. */
  predicate RowsSymmetric(notes: seq<SupabaseNote>) {
    forall i, j :: 0 <= i < |notes| && 0 <= j < |notes| ==>
      (notes[i].id in notes[j].links <==> notes[j].id in notes[i].links)
  }

  /** The state of `useSupabaseNotes`: the local copy of the user's notes and the selection. */
  class PersistedNoteStore {
    var notes: seq<SupabaseNote>
    var selected: Option<SupabaseNote>
    var loading: bool

    constructor ()
      ensures notes == [] && selected == None && loading
    {
      notes := [];
      selected := None;
      loading := true;
    }

    /**
     * `fetchNotes`: without a signed-in user, or when the query fails, nothing changes (and
     * the store keeps loading); otherwise the rows, or none for a null reply, replace the list.
     */
    method FetchNotes(user: Option<string>, outcome: FetchOutcome)
      modifies this
      ensures user.None? || outcome.FetchFailed? ==>
                notes == old(notes) && loading == old(loading)
      ensures user.Some? && outcome.Fetched? ==> notes == outcome.rows.GetOr([]) && !loading
      ensures selected == old(selected)
    {
      if user.None? {
        return;
      }
      if outcome.FetchFailed? {
        return;
      }
      notes := outcome.rows.GetOr([]);
      loading := false;
    }

    /**
     * `createNote(folder)`: without a signed-in user, or when the insert fails, return null
     * and change nothing; otherwise prepend the stored row and select it.
     */
    method CreateNote(user: Option<string>, folder: string, outcome: InsertOutcome)
      returns (r: Option<SupabaseNote>)
      modifies this
      ensures loading == old(loading)
      ensures user.None? || outcome.InsertFailed? ==>
                r.None? && notes == old(notes) && selected == old(selected)
      ensures user.Some? && outcome.Inserted? ==>
                && r == Some(BlankRow(folder, user.value, outcome.id, outcome.at))
                && notes == [r.value] + old(notes)
                && selected == r
    {
      if user.None? {
        return None;
      }
      if outcome.InsertFailed? {
        return None;
      }
      var row := BlankRow(folder, user.value, outcome.id, outcome.at);
      notes := [row] + notes;
      selected := Some(row);
      r := Some(row);
    }

    /**
     * `createAINote(...)`: like `createNote`, but the row is tagged "ai-generated", records
     * its source, and the selection is left alone.
     */
    method CreateAINote(user: Option<string>, title: string, content: string, folder: string,
                        sourceApi: string, outcome: InsertOutcome)
      returns (r: Option<SupabaseNote>)
      modifies this
      ensures loading == old(loading)
      ensures selected == old(selected)
      ensures user.None? || outcome.InsertFailed? ==> r.None? && notes == old(notes)
      ensures user.Some? && outcome.Inserted? ==>
                && r == Some(AIRow(title, content, folder, sourceApi, user.value,
                                   outcome.id, outcome.at))
                && notes == [r.value] + old(notes)
    {
      if user.None? {
        return None;
      }
      if outcome.InsertFailed? {
        return None;
      }
      var row := AIRow(title, content, folder, sourceApi, user.value, outcome.id, outcome.at);
      notes := [row] + notes;
      r := Some(row);
    }

    /**
     * `updateNote(u)`: on success replace the row with `u`'s id (no link mirroring) and
     * select `u`; on error change nothing.
     */
    method UpdateNote(u: SupabaseNote, ok: bool, now: string)
      modifies this
      ensures loading == old(loading)
      ensures !ok ==> notes == old(notes) && selected == old(selected)
      ensures ok ==> notes == ReplaceRow(old(notes), u, now) && selected == Some(u)
    {
      if !ok {
        return;
      }
      notes := ReplaceRow(notes, u, now);
      selected := Some(u);
    }

    /** `deleteNote(x)`: on success drop the row and clear the selection; on error change nothing. */
    method DeleteNote(x: string, ok: bool)
      modifies this
      ensures loading == old(loading)
      ensures !ok ==> notes == old(notes) && selected == old(selected)
      ensures ok ==> notes == DropRow(old(notes), x) && selected == None
    {
      if !ok {
        return;
      }
      notes := DropRow(notes, x);
      selected := None;
    }
  }

  /** A persisted update touches only the row with the updated id; no other row's links move. */
  lemma ReplaceRowOnlyMatching(notes: seq<SupabaseNote>, u: SupabaseNote, now: string)
    ensures forall i :: 0 <= i < |notes| && notes[i].id != u.id ==>
              ReplaceRow(notes, u, now)[i] == notes[i]
    ensures forall i :: 0 <= i < |notes| && notes[i].id == u.id ==>
              ReplaceRow(notes, u, now)[i] == u.(updatedAt := now)
  {
  }

  /**
   * A persisted delete keeps exactly the other rows, in order and unchanged (their links to
   * the deleted id included).
   */
  lemma {:induction false} DropRowSpec(notes: seq<SupabaseNote>, x: string)
    ensures forall n :: n in DropRow(notes, x) <==> n in notes && n.id != x
    ensures |DropRow(notes, x)| <= |notes|
    ensures (forall n :: n in notes ==> n.id != x) ==> DropRow(notes, x) == notes
    ensures Seqs.Subseq(DropRow(notes, x), notes)
  {
    if notes != [] {
      DropRowSpec(notes[1..], x);
      assert notes == [notes[0]] + notes[1..];
    }
  }

  /**
   * Unlike the in-memory store, a persisted update can break bidirectional links: with two
   * rows linking each other, saving the first with no links leaves the second linking it.
   */
  lemma UpdateDoesNotMirror(a: SupabaseNote, b: SupabaseNote, now: string)
    requires a.id != b.id && a.links == [b.id] && b.links == [a.id]
    ensures RowsSymmetric([a, b])
    ensures !RowsSymmetric(ReplaceRow([a, b], a.(links := []), now))
  {
    var r := ReplaceRow([a, b], a.(links := []), now);
    assert r[1] == b;
    assert r[1].id !in r[0].links;
  }
}
