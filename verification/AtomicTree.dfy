/** A staged reconstruction that is published whole or not at all. The file
    system is abstracted to the staged files and directories and the tree at the
    output path. */
module AtomicTree {
  import opened Base
  import opened Rows
  import opened TextOrder

  datatype TreeError = Conflict | Mismatch | UnsafePath | OutputExists | TransferFailed | Interrupted

  /** A tree holds, under each path, the verified bytes of one manifest entry. */
  type Tree = map<string, ManifestLine>

  function Paths(lines: seq<ManifestLine>): set<string> {
    set i | 0 <= i < |lines| :: lines[i].path
  }

  /** The directories a path needs, from the staging root down. */
  function Ancestors(path: string): set<string> {
    AncestorsTo(path, |path|)
  }

  function AncestorsTo(path: string, n: nat): set<string>
    requires n <= |path|
  {
    set i | 0 <= i < n && path[i] == '/' :: path[..i]
  }

  lemma AncestorIsAbove(path: string, ancestor: string)
    ensures ancestor in Ancestors(path) <==> Below(path, ancestor)
  {
    if Below(path, ancestor) {
      assert path[|ancestor|] == (ancestor + "/")[|ancestor|] && path[..|ancestor|] == (ancestor + "/")[..|ancestor|];
    }
    if ancestor in Ancestors(path) {
      var i :| 0 <= i < |path| && path[i] == '/' && path[..i] == ancestor;
      assert path[..i + 1] == ancestor + "/";
    }
  }

  /** A staged file stands where the path needs a directory. */
  predicate Blocked(staged: Tree, path: string) {
    exists ancestor :: ancestor in Ancestors(path) && ancestor in staged
  }

  /** No file of the tree would have to be a directory of another. */
  ghost predicate Placeable(lines: seq<ManifestLine>) {
    forall i, j :: 0 <= i < |lines| && 0 <= j < |lines| ==> !Below(lines[j].path, lines[i].path)
  }

  /** The directories of all lines. */
  function Directories(lines: seq<ManifestLine>): set<string> {
    set i, ancestor | 0 <= i < |lines| && ancestor in Ancestors(lines[i].path) :: ancestor
  }

  /** The whole manifest, file by file. */
  ghost predicate TreeOf(tree: Tree, lines: seq<ManifestLine>) {
    && tree.Keys == Paths(lines)
    && forall i :: 0 <= i < |lines| ==> lines[i].path in tree && tree[lines[i].path] == lines[i]
  }

  class AtomicTreeDownloader {
    var active: bool
    var manifest: seq<ManifestLine>
    var prepared: map<nat, ManifestLine>
    var completed: set<string>
    var staged: Tree
    var directories: set<string>
    var tokens: nat
    /** What stands at the output path, if anything. */
    var output: Option<Tree>
    /** Every entry placed in the current staging tree, in order. */
    ghost var written: seq<ManifestLine>
    /** The entries of the last published tree, in the order they were placed. */
    ghost var published: seq<ManifestLine>

    constructor (output: Option<Tree>)
      ensures Valid() && !active && this.output == output && prepared == map[]
    {
      active, manifest, prepared, completed, staged, directories, tokens := false, [], map[], {}, map[], {}, 0;
      this.output := output;
      written, published := [], [];
    }

    /** Staged files are exactly the completed paths, each a manifest entry in a
        directory of its own, and no path is both. */
    ghost predicate Valid()
      reads this
    {
      && (forall token :: token in prepared ==> token < tokens && prepared[token] in manifest)
      && completed == staged.Keys == Paths(written)
      && (forall path :: path in staged ==> staged[path].path == path && staged[path] in manifest)
      && (forall path :: path in staged ==> path !in directories && Ancestors(path) <= directories)
      && (forall token :: token in prepared ==> Ancestors(prepared[token].path) <= directories)
      && (!active ==> written == [] && prepared == map[] && directories == {})
    }

    /** Validate everything, then create the private staging directory. */
    method Begin(lines: seq<ManifestLine>, canonical: bool, parentSafe: bool) returns (result: Result<(), TreeError>)
      requires Valid()
      modifies this
      ensures Valid() && output == old(output)
      ensures result == if old(active) then Err(Conflict) else if !canonical then Err(Mismatch) else if !parentSafe then Err(UnsafePath)
                        else if old(output).Some? then Err(OutputExists) else Ok(())
      ensures result.Ok? ==> active && manifest == lines && written == [] && prepared == map[] && directories == {}
      ensures result.Err? ==> unchanged(this)
    {
      if active {
        return Err(Conflict);
      }
      if !canonical {
        return Err(Mismatch);
      }
      if !parentSafe {
        return Err(UnsafePath);
      }
      if output.Some? {
        return Err(OutputExists);
      }
      active, manifest, prepared, completed, staged, directories := true, lines, map[], {}, map[], {};
      written := [];
      result := Ok(());
    }

    /** Create the missing directories of one path, from the root down; a staged
        file in their place is an unsafe component. */
    method MakeParents(path: string) returns (result: Result<(), TreeError>)
      requires Valid() && active
      modifies `directories
      ensures Valid()
      ensures result == if Blocked(staged, path) then Err(UnsafePath) else Ok(())
      ensures result.Ok? ==> directories == old(directories) + Ancestors(path)
      ensures result.Err? ==> old(directories) <= directories <= old(directories) + Ancestors(path)
    {
      for i := 0 to |path|
        invariant Valid()
        invariant directories == old(directories) + AncestorsTo(path, i)
        invariant AncestorsTo(path, i) !! staged.Keys
      {
        assert path[i] != '/' ==> AncestorsTo(path, i + 1) == AncestorsTo(path, i);
        assert path[i] == '/' ==> AncestorsTo(path, i + 1) == AncestorsTo(path, i) + {path[..i]};
        if path[i] == '/' {
          if path[..i] in staged {
            assert path[..i] in Ancestors(path);
            return Err(UnsafePath);
          }
          directories := directories + {path[..i]};
        }
      }
      result := Ok(());
    }

    /** Make the directories of one entry and open its exclusive temporary file,
        before its URL is issued. */
    method Prepare(entry: ManifestLine, opens: bool) returns (result: Result<nat, TreeError>)
      requires Valid()
      modifies this
      ensures Valid() && output == old(output) && active == old(active) && manifest == old(manifest)
      ensures written == old(written) && staged == old(staged)
      ensures result.Ok? <==> old(active) && entry in old(manifest) && !Blocked(old(staged), entry.path) && opens
      ensures result.Err? ==>
        result.error == if !old(active) then Conflict else if entry !in old(manifest) then Mismatch else UnsafePath
      ensures result.Ok? ==> result.value !in old(prepared) && prepared == old(prepared)[result.value := entry]
      ensures result.Ok? ==> directories == old(directories) + Ancestors(entry.path)
      ensures result.Err? ==> prepared == old(prepared)
      ensures !old(active) || entry !in old(manifest) ==> directories == old(directories)
      ensures result.Err? ==> old(directories) <= directories <= old(directories) + Ancestors(entry.path)
    {
      if !active {
        return Err(Conflict);
      }
      if entry !in manifest {
        return Err(Mismatch);
      }
      var made :- MakeParents(entry.path);
      if !opens {
        return Err(UnsafePath);
      }
      var token := tokens;
      prepared, tokens := prepared[token := entry], token + 1;
      result := Ok(token);
    }

    /** Download one item into its part file and place it in the staging tree,
        by a rename that never replaces a directory. */
    method Write(token: nat, item: ManifestLine, delivers: bool) returns (result: Result<(), TreeError>)
      requires Valid()
      modifies this
      ensures Valid() && output == old(output) && active == old(active) && manifest == old(manifest)
      ensures directories == old(directories)
      ensures result.Ok? <==> token in old(prepared) && item == old(prepared)[token] && delivers && item.path !in old(directories)
      ensures result.Ok? ==> written == old(written) + [item] && prepared == old(prepared) - {token}
      ensures result.Ok? ==> staged == old(staged)[item.path := item]
      ensures result.Err? ==> written == old(written) && staged == old(staged)
      ensures result.Err? ==>
        if token !in old(prepared) then result.error == Conflict && prepared == old(prepared)
        else if item != old(prepared)[token] then result.error == Mismatch && prepared == old(prepared)
        else result.error == TransferFailed && prepared == old(prepared) - {token}
    {
      if token !in prepared {
        return Err(Conflict);
      }
      var entry := prepared[token];
      if item != entry {
        return Err(Mismatch);
      }
      prepared := prepared - {token};
      if !delivers || entry.path in directories {
        return Err(TransferFailed);
      }
      staged, completed := staged[entry.path := entry], completed + {entry.path};
      ghost var before := written;
      written := written + [entry];
      assert Paths(written) == Paths(before) + {entry.path} by {
        assert written[|before|] == entry;
        assert forall i :: 0 <= i < |before| ==> written[i] == before[i];
      }
      result := Ok(());
    }

    /** Publish the staging tree by one move that never replaces an output. */
    method Commit(moves: bool) returns (result: Result<(), TreeError>)
      requires Valid()
      modifies this
      ensures Valid()
      ensures result.Ok? <==>
        old(active) && old(prepared) == map[] && Paths(old(written)) == Paths(old(manifest)) && old(output).None? && moves
      ensures result.Ok? ==> output == Some(old(staged)) && published == old(written) && !active
      ensures result.Err? ==> unchanged(this)
      ensures result.Err? ==>
        result.error == if !old(active) || old(prepared) != map[] then Conflict
                        else if Paths(old(written)) != Paths(old(manifest)) then Mismatch
                        else OutputExists
    {
      if !active {
        return Err(Conflict);
      }
      if prepared != map[] {
        return Err(Conflict);
      }
      if completed != Paths(manifest) {
        return Err(Mismatch);
      }
      if output.Some? || !moves {
        return Err(OutputExists);
      }
      output, active := Some(staged), false;
      completed, staged, directories := {}, map[], {};
      published, written := written, [];
      result := Ok(());
    }

    /** Discard the staging tree; the output path is not touched. */
    method Abort()
      requires Valid()
      modifies this
      ensures Valid() && !active && staged == map[] && prepared == map[] && completed == {} && directories == {}
      ensures output == old(output)
    {
      prepared, completed, staged, directories, active := map[], {}, map[], {}, false;
      written := [];
    }
  }

  /** Files placed once each from a manifest with distinct paths are the manifest. */
  lemma StagedIsTree(staged: Tree, lines: seq<ManifestLine>)
    requires forall i, j :: 0 <= i < j < |lines| ==> lines[i].path != lines[j].path
    requires staged.Keys == Paths(lines)
    requires forall path :: path in staged ==> staged[path].path == path && staged[path] in lines
    ensures TreeOf(staged, lines)
  {
    forall i | 0 <= i < |lines|
      ensures lines[i].path in staged && staged[lines[i].path] == lines[i]
    {
      assert lines[i].path in Paths(lines);
      var entry := staged[lines[i].path];
      var j :| 0 <= j < |lines| && lines[j] == entry;
      assert lines[j].path == lines[i].path;
    }
  }
}
