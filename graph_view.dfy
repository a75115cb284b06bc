/**
 * The note graph: the folder filter, what each node looks like (colour, radius, label), which
 * links become edges, and which node a click lands on. Node positions are inputs here.
 */
module GraphView {
  import opened Wrappers
  import opened Seqs
  import opened Notes
  import opened SupabaseNotes

  /** The notes shown for a folder choice; "all" shows every note. */
  function FilterByFolder(notes: seq<SupabaseNote>, folder: string): seq<SupabaseNote> {
    if folder == "all" then notes else Filter(notes, (n: SupabaseNote) => n.folder == folder)
  }

  /** `getStatusColor`: AI-generated notes are purple whatever their status. */
  function StatusColor(status: string, aiGenerated: bool): string {
    if aiGenerated then "#8b5cf6"
    else if status == "mastered" then "#10b981"
    else if status == "in-progress" then "#3b82f6"
    else if status == "to-revisit" then "#f59e0b"
    else "#9ca3af"
  }

  /** The node radius: 14 for the selected note, 10 otherwise. */
  function NodeRadius(selected: Option<string>, id: string): int {
    if selected.Some? && selected.value == id then 14 else 10
  }

  /** The label under a node: titles over 15 characters are cut to 15 and get "...". */
  function Label(title: string): string {
    if |title| > 15 then title[..15] + "..." else title
  }

  /** A placed node; the circular placement itself is an input. */
  datatype Node = Node(id: string, title: string, x: int, y: int, status: string,
                       aiGenerated: bool)

  /** `filteredNotes.map(...)` with the given positions. */
  function Nodes(filtered: seq<SupabaseNote>, xs: seq<int>, ys: seq<int>): (nodes: seq<Node>)
    requires |xs| == |filtered| && |ys| == |filtered|
    ensures |nodes| == |filtered|
  {
    seq(|filtered|, i requires 0 <= i < |filtered| =>
          Node(filtered[i].id, filtered[i].title, xs[i], ys[i], StatusName(filtered[i].status),
               filtered[i].aiGenerated))
  }

  /** `nodes.find(n => n.id === id)`: the index of the first node with that id. */
  function FindNode(nodes: seq<Node>, id: string): (r: Option<nat>)
    ensures r.Some? ==> r.value < |nodes| && nodes[r.value].id == id
                        && forall j :: 0 <= j < r.value ==> nodes[j].id != id
    ensures r.None? ==> forall j :: 0 <= j < |nodes| ==> nodes[j].id != id
  {
    if nodes == [] then None
    else if nodes[0].id == id then Some(0)
    else match FindNode(nodes[1..], id)
      case None => None
      case Some(k) => Some(k + 1)
  }

  /** The edges drawn from `src`: one per link whose target has a node. */
  function EdgesFrom(nodes: seq<Node>, src: string, links: seq<string>): seq<(string, string)> {
    if links == [] then []
    else
      (if FindNode(nodes, src).Some? && FindNode(nodes, links[0]).Some?
       then [(src, links[0])] else [])
      + EdgesFrom(nodes, src, links[1..])
  }

  /** The edges of the graph: for each shown note, in order, its links whose both ends have nodes. */
  function Edges(filtered: seq<SupabaseNote>, nodes: seq<Node>): seq<(string, string)> {
    if filtered == [] then []
    else EdgesFrom(nodes, filtered[0].id, filtered[0].links) + Edges(filtered[1..], nodes)
  }

  /** Whether the point is within 14 of the node (distances compared squared). */
  predicate Hits(n: Node, x: int, y: int) {
    (x - n.x) * (x - n.x) + (y - n.y) * (y - n.y) <= 14 * 14
  }

  /** `nodes.find(...)` in the click handler: the first node within reach of the point. */
  function FirstHit(nodes: seq<Node>, x: int, y: int): (r: Option<nat>)
    ensures r.Some? ==> r.value < |nodes| && Hits(nodes[r.value], x, y)
                        && forall j :: 0 <= j < r.value ==> !Hits(nodes[j], x, y)
    ensures r.None? ==> forall j :: 0 <= j < |nodes| ==> !Hits(nodes[j], x, y)
  {
    if nodes == [] then None
    else if Hits(nodes[0], x, y) then Some(0)
    else match FirstHit(nodes[1..], x, y)
      case None => None
      case Some(k) => Some(k + 1)
  }

  /** Node `i` is within reach of the point and no earlier node is. */
  predicate IsFirstHit(nodes: seq<Node>, x: int, y: int, i: nat) {
    i < |nodes| && Hits(nodes[i], x, y) && forall j :: 0 <= j < i ==> !Hits(nodes[j], x, y)
  }

  /** Note `k` has the id and no earlier note has it. */
  predicate IsFirstWithId(notes: seq<SupabaseNote>, id: string, k: nat) {
    k < |notes| && notes[k].id == id && forall j :: 0 <= j < k ==> notes[j].id != id
  }

  /** `notes.find(n => n.id === id)`: the first note with the id. */
  function FindNote(notes: seq<SupabaseNote>, id: string): (r: Option<SupabaseNote>)
    ensures r.Some? ==> r.value in notes && r.value.id == id
    ensures r.Some? ==> exists k: nat :: IsFirstWithId(notes, id, k) && notes[k] == r.value
    ensures r.None? ==> forall n :: n in notes ==> n.id != id
  {
    if notes == [] then None
    else if notes[0].id == id then Some(notes[0])
    else FindNote(notes[1..], id)
  }

  /** The note a click at (x, y) selects, if any. */
  function ClickTarget(notes: seq<SupabaseNote>, nodes: seq<Node>, x: int, y: int)
    : Option<SupabaseNote>
  {
    match FirstHit(nodes, x, y)
    case None => None
    case Some(i) => FindNote(notes, nodes[i].id)
  }

  /** What one node is drawn as. */
  datatype DrawnNode = DrawnNode(id: string, x: int, y: int, radius: int, color: string,
                                 text: string)

  /** One frame: the edges, then the nodes. */
  datatype Scene = Scene(edges: seq<(string, string)>, nodes: seq<DrawnNode>)

  function DrawNodes(nodes: seq<Node>, selected: Option<string>): (r: seq<DrawnNode>)
    ensures |r| == |nodes|
  {
    seq(|nodes|, i requires 0 <= i < |nodes| =>
          DrawnNode(nodes[i].id, nodes[i].x, nodes[i].y, NodeRadius(selected, nodes[i].id),
                    StatusColor(nodes[i].status, nodes[i].aiGenerated), Label(nodes[i].title)))
  }

  /**
   * The drawing effect: without a canvas, a container or a 2D context nothing is drawn (and no
   * click handler is installed); otherwise the filtered notes are drawn at the given positions.
   */
  function Render(hasCanvas: bool, hasContainer: bool, hasContext: bool,
                  notes: seq<SupabaseNote>, folder: string, selected: Option<string>,
                  xs: seq<int>, ys: seq<int>): (r: Option<Scene>)
    requires |xs| == |FilterByFolder(notes, folder)| && |ys| == |xs|
    ensures r.Some? <==> hasCanvas && hasContainer && hasContext
    ensures r.Some? ==> |r.value.nodes| == |FilterByFolder(notes, folder)|
  {
    if !hasCanvas || !hasContainer || !hasContext then None
    else
      var nodes := Nodes(FilterByFolder(notes, folder), xs, ys);
      Some(Scene(Edges(FilterByFolder(notes, folder), nodes), DrawNodes(nodes, selected)))
  }

  /** The folder filter keeps exactly the notes of the folder, in order ("all" keeps all). */
  lemma FilterByFolderSpec(notes: seq<SupabaseNote>, folder: string)
    ensures folder == "all" ==> FilterByFolder(notes, folder) == notes
    ensures folder != "all" ==>
      forall n :: n in FilterByFolder(notes, folder) <==> n in notes && n.folder == folder
    ensures Subseq(FilterByFolder(notes, folder), notes)
  {
    if folder == "all" {
      SubseqRefl(notes);
    }
  }

  /**
   * Colour priority: AI generation wins; otherwise each stored status has its own colour, none
   * of them grey, and only an unknown status is grey.
   */
  lemma StatusColorSpec(s: Status, status: string, ai: bool)
    ensures ai ==> StatusColor(status, ai) == "#8b5cf6"
    ensures StatusColor(StatusName(s), false) != "#9ca3af"
    ensures !ai ==> (StatusColor(status, ai) == "#9ca3af" <==>
                     status !in {"mastered", "in-progress", "to-revisit"})
    ensures forall t: Status :: t != s ==> StatusColor(StatusName(t), false) != StatusColor(StatusName(s), false)
  {
  }

  /** A label is the title when it fits, else its first 15 characters and "..."; never over 18. */
  lemma LabelSpec(title: string)
    ensures |Label(title)| <= 18
    ensures |title| <= 15 ==> Label(title) == title
    ensures |title| > 15 ==> |Label(title)| == 18
    ensures |title| > 15 ==> Label(title)[..15] == title[..15] && Label(title)[15..] == "..."
  {
  }

  /** Edges from one note: each edge starts at the note and ends at a node. */
  lemma {:induction false} EdgesFromSpec(nodes: seq<Node>, src: string, links: seq<string>)
    ensures forall e :: e in EdgesFrom(nodes, src, links) <==>
      e.0 == src && e.1 in links && FindNode(nodes, src).Some? && FindNode(nodes, e.1).Some?
  {
    if links != [] {
      EdgesFromSpec(nodes, src, links[1..]);
      assert links == [links[0]] + links[1..];
    }
  }

  /**
   * An edge is drawn exactly for a shown note and one of its links when both ends are among
   * the nodes; dangling links and links into other folders draw nothing.
   */
  lemma {:induction false} EdgesSpec(filtered: seq<SupabaseNote>, nodes: seq<Node>)
    ensures forall e :: e in Edges(filtered, nodes) <==>
      (exists n :: n in filtered && e.0 == n.id && e.1 in n.links)
      && FindNode(nodes, e.0).Some? && FindNode(nodes, e.1).Some?
  {
    if filtered != [] {
      EdgesSpec(filtered[1..], nodes);
      EdgesFromSpec(nodes, filtered[0].id, filtered[0].links);
      forall e: (string, string) | (exists n :: n in filtered && e.0 == n.id && e.1 in n.links)
        ensures (e.0 == filtered[0].id && e.1 in filtered[0].links)
             || (exists n :: n in filtered[1..] && e.0 == n.id && e.1 in n.links)
      {
        var n :| n in filtered && e.0 == n.id && e.1 in n.links;
        if n != filtered[0] {
          assert n in filtered[1..];
        }
      }
    }
  }

  /** The nodes stand for exactly the shown notes. */
  lemma NodesFound(filtered: seq<SupabaseNote>, xs: seq<int>, ys: seq<int>, id: string)
    requires |xs| == |filtered| && |ys| == |filtered|
    ensures FindNode(Nodes(filtered, xs, ys), id).Some? <==> exists n :: n in filtered && n.id == id
  {
    var nodes := Nodes(filtered, xs, ys);
    if exists n :: n in filtered && n.id == id {
      var n :| n in filtered && n.id == id;
      var i :| 0 <= i < |filtered| && filtered[i] == n;
      assert nodes[i].id == id;
    }
  }

  /**
   * A click selects the first note whose id is that of the first node within reach; when that
   * node's id is among the notes a note is selected, and no node within reach selects nothing.
   */
  lemma ClickTargetSpec(notes: seq<SupabaseNote>, nodes: seq<Node>, x: int, y: int)
    ensures ClickTarget(notes, nodes, x, y).Some? ==>
      exists i: nat :: IsFirstHit(nodes, x, y, i)
                  && exists k: nat :: IsFirstWithId(notes, nodes[i].id, k)
                                 && ClickTarget(notes, nodes, x, y).value == notes[k]
    ensures forall i: nat :: IsFirstHit(nodes, x, y, i)
                             && (exists n :: n in notes && n.id == nodes[i].id)
                             ==> ClickTarget(notes, nodes, x, y).Some?
    ensures (forall i :: 0 <= i < |nodes| ==> !Hits(nodes[i], x, y)) ==>
      ClickTarget(notes, nodes, x, y).None?
  {
    var h := FirstHit(nodes, x, y);
    if h.Some? {
      forall i: nat | IsFirstHit(nodes, x, y, i) ensures i == h.value {
      }
    }
  }
}
