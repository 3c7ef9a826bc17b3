/** The registry of files observed as created but not yet announced.
    The registry class itself is not part of this model: its add, lookup,
    remove, clear and rename behaviour is assumed here (a finite set of full paths,
    one entry per path), not taken from its code. */
module CreatingFileList {

  /** Registers `path` as pending; registering a pending path again changes nothing. */
  function AddFilePath(files: set<string>, path: string): (r: set<string>)
    ensures path in r
    ensures forall q :: q != path ==> (q in r <==> q in files)
    ensures path in files ==> r == files
  {
    files + {path}
  }

  /** The lookup: a path is pending exactly when forgetting it would change the registry. */
  predicate Contains(files: set<string>, path: string)
    ensures Contains(files, path) <==> RemoveFilePath(files, path) != files
    ensures Contains(files, path) ==> AddFilePath(files, path) == files
  {
    path in files
  }

  /** Forgets `path`; forgetting a path that is not pending changes nothing. */
  function RemoveFilePath(files: set<string>, path: string): (r: set<string>)
    ensures path !in r
    ensures forall q :: q != path ==> (q in r <==> q in files)
    ensures path !in files ==> r == files
  {
    files - {path}
  }

  /** Moves the pending status of `oldPath` to `newPath`; a rename of a path
      that is not pending leaves the registry alone. */
  function ChangeFilePath(files: set<string>, oldPath: string, newPath: string): (r: set<string>)
    ensures oldPath in files ==> newPath in r && (oldPath != newPath ==> oldPath !in r)
    ensures oldPath !in files ==> r == files
    ensures forall q :: q != oldPath && q != newPath ==> (q in r <==> q in files)
  {
    if oldPath in files then files - {oldPath} + {newPath} else files
  }

  function Clear(files: set<string>): (r: set<string>)
    ensures forall q :: q !in r
  {
    {}
  }

  /** What a lookup answers after each update: an added path is found, a
      removed one is not, nothing is found after a clear, and after a rename
      the new name is found exactly when the old one was (or it already was). */
  lemma LookupAfterUpdates(files: set<string>, path: string, oldPath: string, newPath: string)
    ensures Contains(AddFilePath(files, path), path)
    ensures !Contains(RemoveFilePath(files, path), path)
    ensures !Contains(Clear(files), path)
    ensures Contains(ChangeFilePath(files, oldPath, newPath), newPath) <==>
              Contains(files, oldPath) || Contains(files, newPath)
    ensures oldPath != newPath ==> !Contains(ChangeFilePath(files, oldPath, newPath), oldPath)
  {
  }
}
