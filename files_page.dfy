/** The file management page: uploaded files and named folders kept in the page's own
    state, removed by their position in the list. */
module FilesPage {
  import opened Util

  /** What the page keeps of a chosen file. */
  datatype UploadedFile = UploadedFile(name: string, size: nat)

  /** The list after removing position `index` with `splice(index, 1)`: the element there
      goes and the rest close up; a position past the end removes nothing, a negative one
      counts back from the end, and one before the start removes the first entry. */
  function RemoveAt<T>(s: seq<T>, index: int): (r: seq<T>)
    ensures 0 <= index < |s| ==> r == s[..index] + s[index + 1..]
    ensures index >= |s| ==> r == s
    ensures index < 0 && |s| + index >= 0 ==> r == s[..|s| + index] + s[|s| + index + 1..]
    ensures |s| + index < 0 && s != [] ==> r == s[1..]
    ensures s == [] ==> r == []
  {
    Splice(s, index, 1, []).result
  }

  /** Removing the entry just appended gives back the list before the append. */
  lemma RemoveLastAppended<T>(s: seq<T>, x: T)
    ensures RemoveAt(s + [x], |s|) == s
  {
    assert (s + [x])[..|s|] == s;
  }

  /** Removing never grows the list, and removes exactly one entry when the position is in
      range; what remains is the rest in order. */
  lemma RemoveAtShrinks<T>(s: seq<T>, index: int)
    ensures |RemoveAt(s, index)| <= |s|
    ensures 0 <= index < |s| ==> |RemoveAt(s, index)| == |s| - 1
    ensures 0 <= index < |s| ==> multiset(RemoveAt(s, index)) + multiset{s[index]} == multiset(s)
  {
    var r := Splice(s, index, 1, []);
    assert multiset(r.removed) + multiset(r.result) == multiset(s);
    if 0 <= index < |s| {
      assert r.removed == [s[index]];
    }
  }

  class FilesPage {
    var files: seq<UploadedFile>
    var folders: seq<string>
    var newFolderName: string

    constructor ()
      ensures files == [] && folders == [] && newFolderName == ""
    {
      files := [];
      folders := [];
      newFolderName := "";
    }

    method EditFolderName(name: string)
      modifies this
      ensures newFolderName == name && files == old(files) && folders == old(folders)
    {
      newFolderName := name;
    }

    /** `handleFileUpload`: every chosen file is appended, in the order chosen. */
    method HandleFileUpload(chosen: seq<UploadedFile>)
      modifies this
      ensures files == old(files) + chosen
      ensures folders == old(folders) && newFolderName == old(newFolderName)
    {
      files := files + chosen;
    }

    /** `createFolder`. */
    method CreateFolder()
      modifies this
      ensures folders == AppendUnlessBlank(old(folders), old(newFolderName))
      ensures newFolderName == if IsBlank(old(newFolderName)) then old(newFolderName) else ""
      ensures files == old(files)
    {
      TrimEmptyIffBlank(newFolderName);
      if Trim(newFolderName) != "" {
        folders := folders + [newFolderName];
        newFolderName := "";
      }
    }

    /** `deleteFile`, called with the position the list was rendered at. */
    method DeleteFile(index: int)
      modifies this
      ensures files == RemoveAt(old(files), index)
      ensures folders == old(folders) && newFolderName == old(newFolderName)
    {
      var newFiles := files;
      newFiles := Splice(newFiles, index, 1, []).result;
      files := newFiles;
    }

    /** `deleteFolder`, called with the position the list was rendered at. */
    method DeleteFolder(index: int)
      modifies this
      ensures folders == RemoveAt(old(folders), index)
      ensures files == old(files) && newFolderName == old(newFolderName)
    {
      var newFolders := folders;
      newFolders := Splice(newFolders, index, 1, []).result;
      folders := newFolders;
    }
  }
}
