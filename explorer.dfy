/**
 * The file explorer panel (src/components/FileExplorer.tsx): the file tree
 * node type, the set of expanded folders and its toggle, the guards on
 * the create and rename inputs, and the rows the tree renders, each with
 * its indentation level and its slash-separated path.
 */
module Explorer {
  import opened Wrappers
  import opened Text

  datatype Kind = File | Folder

  /** `FileNode`: the optional fields of the interface are `Option`s, and `children?` is `Children`. */
  datatype FileNode = FileNode(
    id: string,
    name: string,
    kind: Kind,
    content: Option<string>,
    children: Children,
    language: Option<string>,
    path: Option<string>)

  /** `children?: FileNode[]`: absent, or a list of nodes (possibly empty). */
  datatype Children = Absent | Present(nodes: seq<FileNode>)

  /** The expanded set after toggling `folderId`: it flips that id's membership and keeps every other id. */
  function Toggled(expanded: set<string>, folderId: string): (r: set<string>)
    ensures folderId in r <==> folderId !in expanded
    ensures forall x :: x != folderId ==> (x in r <==> x in expanded)
  {
    if folderId in expanded then expanded - {folderId} else expanded + {folderId}
  }

  /** Toggling the same folder twice leaves the expanded set as it was. */
  lemma ToggleTwice(expanded: set<string>, folderId: string)
    ensures Toggled(Toggled(expanded, folderId), folderId) == expanded
  {
    var once := Toggled(expanded, folderId);
    var twice := Toggled(once, folderId);
    assert forall x :: x in twice <==> x in expanded by {
      forall x
        ensures x in twice <==> x in expanded
      {
        if x == folderId {
          assert folderId in once <==> folderId !in expanded;
        }
      }
    }
  }

  /** A request the panel passes up to the page: create a node, or rename one. */
  datatype Request =
    | Create(name: string, kind: Kind, parentPath: Option<string>)
    | Rename(id: string, newName: string)

  /** The panel's own input state. */
  class Panel {
    var expanded: set<string>
    var isCreating: Option<string>
    var newFileName: string
    var newFileType: Kind
    var editingId: Option<string>
    var editName: string

    /** The panel as first shown: nothing expanded, no input open. */
    constructor ()
      ensures expanded == {} && isCreating == None && newFileName == "" && newFileType == File
      ensures editingId == None && editName == ""
    {
      expanded := {};
      isCreating := None;
      newFileName := "";
      newFileType := File;
      editingId := None;
      editName := "";
    }

    /** `toggleFolder`: copies the set, then deletes the id if it is there and adds it otherwise. */
    method ToggleFolder(folderId: string)
      modifies this
      ensures expanded == Toggled(old(expanded), folderId)
      ensures isCreating == old(isCreating) && newFileName == old(newFileName) && newFileType == old(newFileType)
      ensures editingId == old(editingId) && editName == old(editName)
    {
      var next := expanded;
      if folderId in next {
        next := next - {folderId};
      } else {
        next := next + {folderId};
      }
      expanded := next;
    }

    /** `handleCreate`: a name that trims to nothing changes nothing; otherwise the untrimmed name goes up and the input closes. */
    method HandleCreate(parentPath: Option<string>) returns (req: Option<Request>)
      modifies this
      ensures Trim(old(newFileName)) == [] ==> req == None && newFileName == old(newFileName) && isCreating == old(isCreating)
      ensures Trim(old(newFileName)) != [] ==>
                req == Some(Create(old(newFileName), old(newFileType), parentPath)) && newFileName == "" && isCreating == None
      ensures expanded == old(expanded) && newFileType == old(newFileType)
      ensures editingId == old(editingId) && editName == old(editName)
    {
      if Trim(newFileName) != [] {
        req := Some(Create(newFileName, newFileType, parentPath));
        newFileName := "";
        isCreating := None;
      } else {
        req := None;
      }
    }

    /** `handleRename`: a name that trims to nothing changes nothing; otherwise the untrimmed name goes up and editing ends. */
    method HandleRename(id: string) returns (req: Option<Request>)
      modifies this
      ensures Trim(old(editName)) == [] ==> req == None && editingId == old(editingId) && editName == old(editName)
      ensures Trim(old(editName)) != [] ==> req == Some(Rename(id, old(editName))) && editingId == None && editName == ""
      ensures expanded == old(expanded) && isCreating == old(isCreating)
      ensures newFileName == old(newFileName) && newFileType == old(newFileType)
    {
      if Trim(editName) != [] {
        req := Some(Rename(id, editName));
        editingId := None;
        editName := "";
      } else {
        req := None;
      }
    }
  }

  /** The guard both handlers apply: a name is accepted exactly when it holds something other than whitespace. */
  lemma NameAccepted(name: string)
    ensures Trim(name) != [] <==> !AllSpace(name)
  {
    TrimEmptyIff(name);
  }

  /** One rendered row of the tree. */
  datatype Row = Row(node: FileNode, level: nat, path: string)

  /** `currentPath`: the node's name under its parent's path, or the bare name at the root. */
  function CurrentPath(parentPath: string, name: string): (p: string)
    ensures parentPath == "" ==> p == name
    ensures parentPath != "" ==> StartsWith(p, parentPath + "/") && p[|parentPath| + 1..] == name
  {
    if parentPath != "" then parentPath + "/" + name else name
  }

  /** Whether the tree descends into a node: an expanded folder whose children are present. */
  predicate Descends(node: FileNode, expanded: set<string>)
  {
    node.kind == Folder && node.id in expanded && node.children.Present?
  }

  /** `renderFileTree`: the rows of each node in turn. */
  function Rows(nodes: seq<FileNode>, level: nat, parentPath: string, expanded: set<string>): (rows: seq<Row>)
    ensures |rows| >= |nodes|
    ensures forall k :: 0 <= k < |rows| ==> rows[k].level >= level
    ensures parentPath != "" ==> forall k :: 0 <= k < |rows| ==> StartsWith(rows[k].path, parentPath + "/")
    decreases nodes
  {
    if nodes == [] then []
    else NodeRows(nodes[0], level, parentPath, expanded) + Rows(nodes[1..], level, parentPath, expanded)
  }

  /** One node's row, then, for an expanded folder with children, its children's rows one level deeper under its path. */
  function NodeRows(node: FileNode, level: nat, parentPath: string, expanded: set<string>): (rows: seq<Row>)
    ensures |rows| >= 1 && rows[0] == Row(node, level, CurrentPath(parentPath, node.name))
    ensures forall k :: 1 <= k < |rows| ==> rows[k].level > level
    ensures !Descends(node, expanded) ==> |rows| == 1
    ensures parentPath != "" ==> forall k :: 0 <= k < |rows| ==> StartsWith(rows[k].path, parentPath + "/")
    decreases node
  {
    var path := CurrentPath(parentPath, node.name);
    var below := if Descends(node, expanded) then Rows(node.children.nodes, level + 1, path, expanded) else [];
    PrefixUnderParent(parentPath, path, below);
    [Row(node, level, path)] + below
  }

  /** Rows under a node's path are also under its parent's path. */
  lemma PrefixUnderParent(parentPath: string, path: string, below: seq<Row>)
    requires parentPath != "" ==> StartsWith(path, parentPath + "/")
    requires path != "" ==> forall k :: 0 <= k < |below| ==> StartsWith(below[k].path, path + "/")
    ensures parentPath != "" ==> forall k :: 0 <= k < |below| ==> StartsWith(below[k].path, parentPath + "/")
  {
    if parentPath != "" {
      forall k | 0 <= k < |below|
        ensures StartsWith(below[k].path, parentPath + "/")
      {
        var q := parentPath + "/";
        assert below[k].path[..|q|] == (path + "/")[..|q|] == path[..|q|] == q;
      }
    }
  }

  /** Every node of a list has its own row, at the list's level and under the parent's path. */
  lemma {:induction false} EachNodeShown(nodes: seq<FileNode>, level: nat, parentPath: string, expanded: set<string>)
    ensures forall c :: c in nodes ==> Row(c, level, CurrentPath(parentPath, c.name)) in Rows(nodes, level, parentPath, expanded)
  {
    if nodes != [] {
      EachNodeShown(nodes[1..], level, parentPath, expanded);
      var head := NodeRows(nodes[0], level, parentPath, expanded);
      var rest := Rows(nodes[1..], level, parentPath, expanded);
      assert Rows(nodes, level, parentPath, expanded) == head + rest;
      forall c | c in nodes
        ensures Row(c, level, CurrentPath(parentPath, c.name)) in head + rest
      {
        if c == nodes[0] {
          assert (head + rest)[0] == head[0];
        } else {
          assert c in nodes[1..];
          var k :| 0 <= k < |rest| && rest[k] == Row(c, level, CurrentPath(parentPath, c.name));
          assert (head + rest)[|head| + k] == rest[k];
        }
      }
    }
  }

  /** An expanded folder with children shows each child one level deeper, under the folder's own path. */
  lemma ChildRowsShown(node: FileNode, level: nat, parentPath: string, expanded: set<string>, c: FileNode)
    requires Descends(node, expanded) && c in node.children.nodes
    ensures Row(c, level + 1, CurrentPath(CurrentPath(parentPath, node.name), c.name)) in NodeRows(node, level, parentPath, expanded)
  {
    var path := CurrentPath(parentPath, node.name);
    var below := Rows(node.children.nodes, level + 1, path, expanded);
    EachNodeShown(node.children.nodes, level + 1, path, expanded);
    assert NodeRows(node, level, parentPath, expanded) == [Row(node, level, path)] + below;
    var k :| 0 <= k < |below| && below[k] == Row(c, level + 1, CurrentPath(path, c.name));
    assert ([Row(node, level, path)] + below)[k + 1] == below[k];
  }

  /** With no folder open among them, the nodes render one row each, in order, at the given level under the given path. */
  lemma {:induction false} CollapsedRows(nodes: seq<FileNode>, level: nat, parentPath: string, expanded: set<string>)
    requires forall i :: 0 <= i < |nodes| ==> !Descends(nodes[i], expanded)
    ensures Rows(nodes, level, parentPath, expanded) == seq(|nodes|, i requires 0 <= i < |nodes| => Row(nodes[i], level, CurrentPath(parentPath, nodes[i].name)))
  {
    if nodes != [] {
      CollapsedRows(nodes[1..], level, parentPath, expanded);
    }
  }

  /** Every row at `level` shows one of `nodes`, under `parentPath`. */
  predicate LevelListed(rows: seq<Row>, nodes: seq<FileNode>, level: nat, parentPath: string)
  {
    forall k :: 0 <= k < |rows| && rows[k].level == level ==>
      rows[k].node in nodes && rows[k].path == CurrentPath(parentPath, rows[k].node.name)
  }

  /** The rows at the level a list is rendered at are that list's own nodes, each under the parent's path. */
  lemma {:induction false} LevelRows(nodes: seq<FileNode>, level: nat, parentPath: string, expanded: set<string>)
    ensures LevelListed(Rows(nodes, level, parentPath, expanded), nodes, level, parentPath)
  {
    if nodes != [] {
      LevelRows(nodes[1..], level, parentPath, expanded);
      var head := NodeRows(nodes[0], level, parentPath, expanded);
      var rest := Rows(nodes[1..], level, parentPath, expanded);
      var rows := head + rest;
      assert Rows(nodes, level, parentPath, expanded) == rows;
      forall k | 0 <= k < |rows| && rows[k].level == level
        ensures rows[k].node in nodes && rows[k].path == CurrentPath(parentPath, rows[k].node.name)
      {
        if k >= |head| {
          var j := k - |head|;
          assert rows[k] == rest[j];
          var i :| 0 <= i < |nodes[1..]| && nodes[1..][i] == rest[j].node;
          assert nodes[i + 1] == rows[k].node;
        }
      }
    }
  }
}
