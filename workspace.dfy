/**
 * The editor page's file list and selection (src/pages/IDE.tsx): creating,
 * deleting and renaming files and editing the selected file's code. Each
 * handler builds a new list and a new selection from the old ones.
 */
module Workspace {
  import opened Wrappers
  import opened Text
  import opened Explorer

  /** The page state the handlers read and replace: the flat file list and the selected file, kept as a copy of a node. */
  datatype State = State(files: seq<FileNode>, selected: Option<FileNode>)

  /** `name.split('.').pop() || 'plaintext'`: the raw text after the last dot, or plaintext when that is empty. */
  function CreatedLanguage(name: string): (lang: string)
    ensures lang != ""
    ensures '.' !in lang
  {
    var last := LastSegment(name, '.');
    if last != "" then last else "plaintext"
  }

  /** The language of `prefix.ext` is `ext` itself, unmapped and with its case kept. */
  lemma CreatedLanguageIsRawExtension(prefix: string, ext: string)
    requires '.' !in ext && ext != ""
    ensures CreatedLanguage(prefix + "." + ext) == ext
  {
    LastSegmentAfter(prefix, '.', ext);
  }

  /** A name without a dot (`Makefile`) is its own language, and an empty name gets plaintext. */
  lemma CreatedLanguageWholeName(name: string)
    requires '.' !in name
    ensures CreatedLanguage(name) == if name != "" then name else "plaintext"
  {
    assert LastSegment(name, '.') == name;
  }

  /** A name ending in a dot gets plaintext. */
  lemma CreatedLanguageTrailingDot(prefix: string)
    ensures CreatedLanguage(prefix + ".") == "plaintext"
  {
    LastSegmentAfter(prefix, '.', "");
    assert prefix + "." + "" == prefix + ".";
  }

  /** `handleFileCreate`: the new empty node goes at the end of the top-level list and becomes the selection; the parent path is not used. */
  function CreateFile(s: State, id: string, name: string, kind: Kind, parentPath: Option<string>): (r: State)
    ensures |r.files| == |s.files| + 1 && r.files[..|s.files|] == s.files
    ensures r.files[|s.files|] == FileNode(id, name, kind, Some(""), Absent, Some(CreatedLanguage(name)), None)
    ensures r.selected == Some(r.files[|s.files|])
  {
    var node := FileNode(id, name, kind, Some(""), Absent, Some(CreatedLanguage(name)), None);
    State(s.files + [node], Some(node))
  }

  /** `files.filter((f) => f.id !== id)`. */
  function Without(files: seq<FileNode>, id: string): (r: seq<FileNode>)
    ensures |r| <= |files|
    ensures forall i :: 0 <= i < |r| ==> r[i].id != id && r[i] in files
    ensures forall i :: 0 <= i < |files| && files[i].id != id ==> files[i] in r
  {
    if files == [] then []
    else if files[0].id == id then Without(files[1..], id)
    else [files[0]] + Without(files[1..], id)
  }

  /** The filter keeps order: filtering a concatenation filters each part. */
  lemma {:induction false} WithoutAppend(a: seq<FileNode>, b: seq<FileNode>, id: string)
    ensures Without(a + b, id) == Without(a, id) + Without(b, id)
  {
    if a == [] {
      assert a + b == b;
    } else {
      assert (a + b)[0] == a[0];
      assert (a + b)[1..] == a[1..] + b;
      WithoutAppend(a[1..], b, id);
    }
  }

  /** A list without the id is kept whole. */
  lemma {:induction false} WithoutAbsent(files: seq<FileNode>, id: string)
    requires forall i :: 0 <= i < |files| ==> files[i].id != id
    ensures Without(files, id) == files
  {
    if files != [] {
      WithoutAbsent(files[1..], id);
    }
  }

  /** `handleFileDelete`: drops every node with the id; if the selection had that id it becomes the first node of the list before the delete. */
  function DeleteFile(s: State, id: string): (r: State)
    ensures r.files == Without(s.files, id)
    ensures s.selected.Some? && s.selected.value.id == id ==> r.selected == (if s.files == [] then None else Some(s.files[0]))
    ensures !(s.selected.Some? && s.selected.value.id == id) ==> r.selected == s.selected
  {
    var files := Without(s.files, id);
    if s.selected.Some? && s.selected.value.id == id then
      State(files, if s.files == [] then None else Some(s.files[0]))
    else
      State(files, s.selected)
  }

  /** As written, deleting the selected first file leaves that deleted file selected. */
  lemma DeleteFirstKeepsItSelected(s: State)
    requires s.files != [] && s.selected == Some(s.files[0])
    ensures DeleteFile(s, s.files[0].id).selected == Some(s.files[0])
    ensures s.files[0] !in DeleteFile(s, s.files[0].id).files
  {
  }

  /** The intended delete: a deleted selection moves to the first file that remains, or to none. */
  function DeleteFileReselecting(s: State, id: string): (r: State)
    ensures r.files == Without(s.files, id)
    ensures s.selected.Some? && s.selected.value.id == id ==>
              (r.selected.None? <==> r.files == []) && (r.selected.Some? ==> r.selected.value in r.files)
    ensures !(s.selected.Some? && s.selected.value.id == id) ==> r.selected == s.selected
  {
    var files := Without(s.files, id);
    if s.selected.Some? && s.selected.value.id == id then
      State(files, if files == [] then None else Some(files[0]))
    else
      State(files, s.selected)
  }

  /** With the intended delete a deleted file is never left selected. */
  lemma DeletedNeverSelected(s: State, id: string)
    ensures var r := DeleteFileReselecting(s, id); r.selected.Some? ==> r.selected.value.id != id
  {
  }

  /** Creating a file with a fresh id and deleting it again gives back the file list. */
  lemma CreateThenDelete(s: State, id: string, name: string, kind: Kind, parentPath: Option<string>)
    requires forall i :: 0 <= i < |s.files| ==> s.files[i].id != id
    ensures DeleteFile(CreateFile(s, id, name, kind, parentPath), id).files == s.files
    ensures DeleteFileReselecting(CreateFile(s, id, name, kind, parentPath), id).files == s.files
  {
    var node := CreateFile(s, id, name, kind, parentPath).files[|s.files|];
    WithoutAppend(s.files, [node], id);
    WithoutAbsent(s.files, id);
    assert Without([node], id) == [];
  }

  /** `files.map((f) => (f.id === id ? { ...f, name: newName } : f))`. */
  function Renamed(files: seq<FileNode>, id: string, newName: string): seq<FileNode>
  {
    seq(|files|, i requires 0 <= i < |files| => if files[i].id == id then files[i].(name := newName) else files[i])
  }

  /** `handleFileRename`: only the name of the nodes with the id changes; the selection is left as it was. */
  function RenameFile(s: State, id: string, newName: string): State
  {
    State(Renamed(s.files, id, newName), s.selected)
  }

  /** Nothing but names changes: ids, order, kinds, contents and languages are kept, the nodes with other ids and the selection are untouched. */
  lemma RenameChangesOnlyNames(s: State, id: string, newName: string)
    ensures var r := RenameFile(s, id, newName);
            r.selected == s.selected && |r.files| == |s.files| &&
            forall i :: 0 <= i < |s.files| ==>
              r.files[i].(name := s.files[i].name) == s.files[i] &&
              (s.files[i].id == id ==> r.files[i].name == newName) &&
              (s.files[i].id != id ==> r.files[i] == s.files[i])
  {
  }

  /** Renaming twice is renaming once to the second name. */
  lemma RenameTwice(s: State, id: string, first: string, second: string)
    ensures RenameFile(RenameFile(s, id, first), id, second) == RenameFile(s, id, second)
  {
    var a := Renamed(Renamed(s.files, id, first), id, second);
    var b := Renamed(s.files, id, second);
    assert |a| == |b|;
    forall i | 0 <= i < |a|
      ensures a[i] == b[i]
    {
    }
    assert a == b;
  }

  /** `handleCodeChange`, as written: the selected copy gets the new content and replaces every node with its id. */
  function CodeChange(s: State, value: Option<string>): State
  {
    if s.selected.Some? && value.Some? then
      var updated := s.selected.value.(content := value);
      State(seq(|s.files|, i requires 0 <= i < |s.files| => if s.files[i].id == updated.id then updated else s.files[i]), Some(updated))
    else s
  }

  /**
   * Without a selection or a value nothing changes. Otherwise the selection
   * and every node with its id become the selected copy with the new
   * content, whatever those nodes held before; other nodes are untouched.
   */
  lemma CodeChangeReplacesSelected(s: State, value: Option<string>)
    ensures s.selected.None? || value.None? ==> CodeChange(s, value) == s
    ensures s.selected.Some? && value.Some? ==>
              var r := CodeChange(s, value);
              var updated := s.selected.value.(content := value);
              r.selected == Some(updated) && |r.files| == |s.files| &&
              (forall i :: 0 <= i < |s.files| && s.files[i].id == updated.id ==> r.files[i] == updated) &&
              (forall i :: 0 <= i < |s.files| && s.files[i].id != updated.id ==> r.files[i] == s.files[i])
  {
  }

  /** As written, renaming the selected file and then typing into it brings the old name back. */
  lemma RenameThenEditRevertsName(s: State, newName: string, code: string)
    requires s.files != [] && s.selected == Some(s.files[0]) && newName != s.files[0].name
    ensures RenameFile(s, s.files[0].id, newName).files[0].name == newName
    ensures CodeChange(RenameFile(s, s.files[0].id, newName), Some(code)).files[0].name == s.files[0].name != newName
  {
  }

  /** The intended code change: only the content of the nodes with the selected id changes, in the list and in the selection. */
  function CodeChangeKeepingFields(s: State, value: Option<string>): State
  {
    if s.selected.Some? && value.Some? then
      var id := s.selected.value.id;
      State(seq(|s.files|, i requires 0 <= i < |s.files| => if s.files[i].id == id then s.files[i].(content := value) else s.files[i]),
            Some(s.selected.value.(content := value)))
    else s
  }

  /** With the intended code change only contents change, and only on the nodes with the selected id. */
  lemma CodeChangeOnlyContent(s: State, value: Option<string>)
    ensures s.selected.None? || value.None? ==> CodeChangeKeepingFields(s, value) == s
    ensures s.selected.Some? && value.Some? ==>
              var r := CodeChangeKeepingFields(s, value);
              r.selected == Some(s.selected.value.(content := value)) && |r.files| == |s.files| &&
              forall i :: 0 <= i < |s.files| ==>
                r.files[i].(content := s.files[i].content) == s.files[i] &&
                r.files[i].content == (if s.files[i].id == s.selected.value.id then value else s.files[i].content)
  {
  }

  /** With the intended code change a rename survives the next edit, and the edit lands in the content. */
  lemma RenameThenEditKeepsName(s: State, id: string, newName: string, code: string)
    requires s.selected.Some? && s.selected.value.id == id
    ensures var r := CodeChangeKeepingFields(RenameFile(s, id, newName), Some(code));
            forall i :: 0 <= i < |s.files| && s.files[i].id == id ==>
              r.files[i].name == newName && r.files[i].content == Some(code)
  {
  }
}
