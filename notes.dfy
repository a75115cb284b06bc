/**
 * The in-memory note store: a list of notes and a selected note, with create, update and
 * delete. Update keeps links bidirectional by mirroring the updated note's links into every
 * other note; delete purges the deleted id from every link list.
 */
module Notes {
  import opened Wrappers
  import opened Seqs

  datatype Status = ToRevisit | InProgress | Mastered

  /** The status as stored: 'to-revisit', 'in-progress' or 'mastered'. */
  function StatusName(s: Status): string {
    match s
    case ToRevisit => "to-revisit"
    case InProgress => "in-progress"
    case Mastered => "mastered"
  }

  /** A note; dates are clock readings taken as parameters. */
  datatype Note = Note(id: string, title: string, content: string, tags: seq<string>,
                       folder: string, status: Status, links: seq<string>,
                       createdAt: int, updatedAt: int)

  /** The ids of `notes`, in order. */
  function Ids(notes: seq<Note>): (ids: seq<string>)
    ensures |ids| == |notes| && forall i :: 0 <= i < |notes| ==> ids[i] == notes[i].id
  {
    seq(|notes|, i requires 0 <= i < |notes| => notes[i].id)
  }

  /**
   * The five seeded notes, with `bodies` standing for their markdown bodies: Arrays links
   * Strings and Linked Lists, Strings links Arrays, Linked Lists links Recursion, Recursion
   * links Linked Lists and Stack and Queue, Stack and Queue links Recursion.
   */
  function InitialNotes(bodies: seq<string>, now: int): seq<Note>
    requires |bodies| == 5
  {
    [ Note("1", "Arrays", bodies[0], ["data-structure", "fundamental"], "Arrays",
           InProgress, ["2", "3"], now, now),
      Note("2", "Strings", bodies[1], ["data-structure", "text-processing"], "Strings",
           ToRevisit, ["1"], now, now),
      Note("3", "Linked Lists", bodies[2], ["data-structure", "pointers"], "Linked Lists",
           Mastered, ["4"], now, now),
      Note("4", "Recursion & Backtracking", bodies[3], ["algorithm", "problem-solving"],
           "Recursion", InProgress, ["3", "5"], now, now),
      Note("5", "Stack and Queue", bodies[4], ["data-structure", "fundamental"],
           "Stacks & Queues", ToRevisit, ["4"], now, now) ]
  }

  /** The note `createNote(folder)` builds, with its id and dates supplied by the caller. */
  function NewNote(id: string, folder: string, now: int): Note {
    Note(id, "Untitled Note", "# New Note\n\nStart writing your DSA notes here...", [],
         folder, InProgress, [], now, now)
  }

  /** The first `map`: every note with the updated id becomes the update, stamped `now`. */
  function ReplaceById(notes: seq<Note>, u: Note, now: int): (r: seq<Note>)
    ensures |r| == |notes|
  {
    seq(|notes|, i requires 0 <= i < |notes| =>
          if notes[i].id == u.id then u.(updatedAt := now) else notes[i])
  }

  /** The link-sync rule applied to one note `n` after `u` was saved. */
  function MirrorNote(n: Note, u: Note): Note {
    if n.id in u.links && u.id !in n.links then n.(links := n.links + [u.id])
    else if n.id !in u.links && u.id in n.links then n.(links := RemoveAll(n.links, u.id))
    else n
  }

  /** The second `map`: the link-sync rule applied to every note. */
  function MirrorLinks(notes: seq<Note>, u: Note): (r: seq<Note>)
    ensures |r| == |notes|
  {
    seq(|notes|, i requires 0 <= i < |notes| => MirrorNote(notes[i], u))
  }

  /** `deleteNote`'s list transform: drop the note, then drop its id from every link list. */
  function Purge(notes: seq<Note>, x: string): (r: seq<Note>)
  {
    var kept := Filter(notes, (n: Note) => n.id != x);
    seq(|kept|, i requires 0 <= i < |kept| => kept[i].(links := RemoveAll(kept[i].links, x)))
  }

  /** Links are bidirectional: `a` links `b` exactly when `b` links `a`. */
  predicate Symmetric(notes: seq<Note>) {
    forall i, j :: 0 <= i < |notes| && 0 <= j < |notes| ==>
      (notes[i].id in notes[j].links <==> notes[j].id in notes[i].links)
  }

  /** The state of `useNotes`: the list of notes and the selected note. */
  class NoteStore {
    var notes: seq<Note>
    var selected: Option<Note>

    /** The store starts with the seeded notes and the first of them selected. */
    constructor (bodies: seq<string>, now: int)
      requires |bodies| == 5
      ensures notes == InitialNotes(bodies, now)
      ensures selected == Some(notes[0])
    {
      notes := InitialNotes(bodies, now);
      selected := Some(InitialNotes(bodies, now)[0]);
    }

    /** `createNote(folder)`: append a blank note and select it. */
    method CreateNote(folder: string, id: string, now: int) returns (n: Note)
      modifies this
      ensures n == NewNote(id, folder, now)
      ensures notes == old(notes) + [n]
      ensures selected == Some(n)
    {
      n := NewNote(id, folder, now);
      notes := notes + [n];
      selected := Some(n);
    }

    /**
     * `updateNote(u)`: replace the note by id, select `u`, then mirror `u`'s links into
     * every note. Afterwards a note links `u` exactly when `u` links it.
     */
    method UpdateNote(u: Note, now: int)
      modifies this
      ensures notes == MirrorLinks(ReplaceById(old(notes), u, now), u)
      ensures selected == Some(u)
      ensures forall i :: 0 <= i < |notes| ==> (u.id in notes[i].links <==> notes[i].id in u.links)
    {
      notes := ReplaceById(notes, u, now);
      selected := Some(u);
      notes := MirrorLinks(notes, u);
      forall i | 0 <= i < |notes|
        ensures u.id in notes[i].links <==> notes[i].id in u.links
      {
        MirrorNoteLinks(old(notes)[i], u);
        MirrorNoteLinks(u.(updatedAt := now), u);
      }
    }

    /** `deleteNote(x)`: purge the note and every link to it; clear the selection. */
    method DeleteNote(x: string)
      modifies this
      ensures notes == Purge(old(notes), x)
      ensures selected == None
      ensures forall i :: 0 <= i < |notes| ==> notes[i].id != x && x !in notes[i].links
    {
      notes := Purge(notes, x);
      selected := None;
      PurgeRemoves(old(notes), x);
    }
  }

  /**
   * The sync rule on one note: afterwards `n` links `u` exactly when `u` links `n`, and every
   * other link and every other field of `n` is as before.
   */
  lemma MirrorNoteLinks(n: Note, u: Note)
    ensures u.id in MirrorNote(n, u).links <==> n.id in u.links
    ensures forall x :: x != u.id ==> (x in MirrorNote(n, u).links <==> x in n.links)
    ensures MirrorNote(n, u) == n.(links := MirrorNote(n, u).links)
  {
  }

  /** Replacing by id keeps the ids in order and leaves notes with other ids alone. */
  lemma ReplaceByIdSpec(notes: seq<Note>, u: Note, now: int)
    ensures Ids(ReplaceById(notes, u, now)) == Ids(notes)
    ensures forall i :: 0 <= i < |notes| && notes[i].id != u.id ==>
              ReplaceById(notes, u, now)[i] == notes[i]
    ensures forall i :: 0 <= i < |notes| && notes[i].id == u.id ==>
              ReplaceById(notes, u, now)[i] == u.(updatedAt := now)
    ensures u.id !in Ids(notes) ==> ReplaceById(notes, u, now) == notes
  {
  }

  /**
   * After `updateNote(u)`, every note other than `u` keeps its title, content, tags, folder,
   * status and dates, and its links change at most in the entry `u.id`.
   */
  lemma UpdateTouchesOnlyLinks(notes: seq<Note>, u: Note, now: int)
    ensures var r := MirrorLinks(ReplaceById(notes, u, now), u);
      forall i :: 0 <= i < |notes| && notes[i].id != u.id ==>
        && r[i] == notes[i].(links := r[i].links)
        && forall x :: x != u.id ==> (x in r[i].links <==> x in notes[i].links)
  {
    forall i | 0 <= i < |notes| && notes[i].id != u.id {
      MirrorNoteLinks(notes[i], u);
    }
  }

  /** `updateNote` turns any store with bidirectional links into one with bidirectional links. */
  lemma {:induction false} UpdatePreservesSymmetry(notes: seq<Note>, u: Note, now: int)
    requires Symmetric(notes)
    ensures Symmetric(MirrorLinks(ReplaceById(notes, u, now), u))
  {
    var r := MirrorLinks(ReplaceById(notes, u, now), u);
    forall i | 0 <= i < |r|
      ensures r[i].id == notes[i].id
      ensures r[i].id == u.id ==> r[i].links == u.links
      ensures u.id in r[i].links <==> r[i].id in u.links
      ensures r[i].id != u.id ==> forall x :: x != u.id ==> (x in r[i].links <==> x in notes[i].links)
    {
      if notes[i].id == u.id {
        MirrorNoteLinks(u.(updatedAt := now), u);
      } else {
        MirrorNoteLinks(notes[i], u);
      }
    }
  }

  /** After purging `x`, no note has id `x` and no note links `x`. */
  lemma PurgeRemoves(notes: seq<Note>, x: string)
    ensures forall i :: 0 <= i < |Purge(notes, x)| ==>
              Purge(notes, x)[i].id != x && x !in Purge(notes, x)[i].links
  {
    var kept := Filter(notes, (n: Note) => n.id != x);
    forall i | 0 <= i < |kept| ensures kept[i].id != x {
      assert kept[i] in kept;
    }
  }

  /** Purging `x` keeps exactly the notes with other ids, in their original order. */
  lemma PurgeIds(notes: seq<Note>, x: string)
    ensures forall id :: id in Ids(Purge(notes, x)) <==> id in Ids(notes) && id != x
    ensures Subseq(Ids(Purge(notes, x)), Ids(notes))
  {
    var kept := Filter(notes, (n: Note) => n.id != x);
    assert Ids(Purge(notes, x)) == Ids(kept);
    forall id ensures id in Ids(kept) ==> id in Ids(notes) && id != x {
      if id in Ids(kept) {
        var i :| 0 <= i < |kept| && kept[i].id == id;
        assert kept[i] in kept;
      }
    }
    forall id ensures id in Ids(notes) && id != x ==> id in Ids(kept) {
      if id in Ids(notes) && id != x {
        var i :| 0 <= i < |notes| && notes[i].id == id;
        assert notes[i] in kept;
      }
    }
    SubseqIds(kept, notes);
  }

  /** The ids of a subsequence form a subsequence of the ids. */
  lemma {:induction false} SubseqIds(a: seq<Note>, b: seq<Note>)
    requires Subseq(a, b)
    ensures Subseq(Ids(a), Ids(b))
    decreases |b|
  {
    if a != [] && b != [] {
      if a[0] == b[0] && Subseq(a[1..], b[1..]) {
        assert Ids(a)[1..] == Ids(a[1..]);
        assert Ids(b)[1..] == Ids(b[1..]);
        SubseqIds(a[1..], b[1..]);
      } else {
        assert Ids(b)[1..] == Ids(b[1..]);
        SubseqIds(a, b[1..]);
      }
    }
  }

  /** Purging keeps every surviving note's fields other than its links. */
  lemma PurgeKeepsFields(notes: seq<Note>, x: string)
    ensures forall i :: 0 <= i < |Purge(notes, x)| ==>
              Purge(notes, x)[i].(links := []) in
                seq(|notes|, j requires 0 <= j < |notes| => notes[j].(links := []))
  {
    var kept := Filter(notes, (n: Note) => n.id != x);
    var stripped := seq(|notes|, j requires 0 <= j < |notes| => notes[j].(links := []));
    forall i | 0 <= i < |Purge(notes, x)| ensures Purge(notes, x)[i].(links := []) in stripped {
      assert kept[i] in notes;
      var j :| 0 <= j < |notes| && notes[j] == kept[i];
      assert stripped[j] == Purge(notes, x)[i].(links := []);
    }
  }

  /** `deleteNote` keeps links bidirectional. */
  lemma PurgePreservesSymmetry(notes: seq<Note>, x: string)
    requires Symmetric(notes)
    ensures Symmetric(Purge(notes, x))
  {
    var kept := Filter(notes, (n: Note) => n.id != x);
    var r := Purge(notes, x);
    forall i, j | 0 <= i < |r| && 0 <= j < |r|
      ensures r[i].id in r[j].links <==> r[j].id in r[i].links
    {
      assert kept[i] in notes && kept[j] in notes;
      var a :| 0 <= a < |notes| && notes[a] == kept[i];
      var b :| 0 <= b < |notes| && notes[b] == kept[j];
      assert notes[a].id in notes[b].links <==> notes[b].id in notes[a].links;
    }
  }

  /**
   * `createNote` keeps links bidirectional as long as no existing note already links the
   * fresh id.
   */
  lemma CreatePreservesSymmetry(notes: seq<Note>, id: string, folder: string, now: int)
    requires Symmetric(notes)
    requires forall i :: 0 <= i < |notes| ==> id !in notes[i].links
    ensures Symmetric(notes + [NewNote(id, folder, now)])
  {
    var r := notes + [NewNote(id, folder, now)];
    forall i, j | 0 <= i < |r| && 0 <= j < |r|
      ensures r[i].id in r[j].links <==> r[j].id in r[i].links
    {
      if i < |notes| && j < |notes| {
        assert r[i] == notes[i] && r[j] == notes[j];
      }
    }
  }

  /**
   * The seeded notes are not bidirectional (Arrays links Linked Lists but not the reverse);
   * re-saving Arrays unchanged repairs this.
   */
  lemma InitialNotesNotSymmetric(bodies: seq<string>, now: int, later: int)
    requires |bodies| == 5
    ensures !Symmetric(InitialNotes(bodies, now))
    ensures var init := InitialNotes(bodies, now);
      Symmetric(MirrorLinks(ReplaceById(init, init[0], later), init[0]))
  {
    var init := InitialNotes(bodies, now);
    assert init[2].id in init[0].links && init[0].id !in init[2].links;
    var r := MirrorLinks(ReplaceById(init, init[0], later), init[0]);
    assert r[0].links == ["2", "3"];
    assert r[1].links == ["1"];
    assert r[2].links == ["4", "1"];
    assert r[3].links == ["3", "5"];
    assert r[4].links == ["4"];
    assert Ids(r) == ["1", "2", "3", "4", "5"];
  }
}
