/** `rsync_and_git_add_all`: make sure the mirror directory of every tracked
    path exists under the repository `base`, then return one rsync command per
    tracked path and a final `git add`. */
module Sync {
  import opened Paths

  /** A command line, as `subprocess.run` takes it. */
  type Cmd = seq<string>

  /** The mirror directory of tracked path `p`: rsync copies `p` into it,
      which puts the copy at `base + p`. */
  function Destination(base: string, p: string): string {
    Dirname(base + p)
  }

  function RsyncCmd(base: string, p: string): Cmd {
    ["rsync", "-rlpt", "--delete", p, Destination(base, p)]
  }

  const GitAddAll: Cmd := ["git", "add", "--ignore-errors", "--all"]

  /** The commands `rsync_and_git_add_all` returns. */
  function SyncCommands(base: string, tracked: seq<string>): (cmds: seq<Cmd>)
    ensures |cmds| == |tracked| + 1
    ensures forall i :: 0 <= i < |tracked| ==>
      cmds[i] == ["rsync", "-rlpt", "--delete", tracked[i], Dirname(base + tracked[i])]
    ensures cmds[|tracked|] == ["git", "add", "--ignore-errors", "--all"]
    decreases |tracked|
  {
    if tracked == [] then [GitAddAll]
    else [RsyncCmd(base, tracked[0])] + SyncCommands(base, tracked[1..])
  }

  /** The mirror directories of all tracked paths. */
  function Destinations(base: string, tracked: seq<string>): set<string> {
    set p | p in tracked :: Destination(base, p)
  }

  lemma DestinationsSnoc(base: string, tracked: seq<string>, i: nat)
    requires i < |tracked|
    ensures Destinations(base, tracked[..i + 1]) == Destinations(base, tracked[..i]) + {Destination(base, tracked[i])}
  {
    assert tracked[..i + 1] == tracked[..i] + [tracked[i]];
  }

  /** The `makedirs` loop: the set of existing directories grows by the
      mirror directory of every tracked path that lacks one. */
  method MakeDestinations(base: string, tracked: seq<string>, existing: set<string>) returns (dirs: set<string>)
    ensures dirs == existing + Destinations(base, tracked)
    ensures forall p :: p in tracked ==> Dirname(base + p) in dirs
  {
    dirs := existing;
    var i := 0;
    while i < |tracked|
      invariant 0 <= i <= |tracked|
      invariant dirs == existing + Destinations(base, tracked[..i])
    {
      var d := Destination(base, tracked[i]);
      if d !in dirs {
        dirs := dirs + {d};
      }
      DestinationsSnoc(base, tracked, i);
      i := i + 1;
    }
    assert tracked[..i] == tracked;
  }

  /** `rsync_and_git_add_all` with the file system reduced to its set of
      directories. */
  method RsyncAndGitAddAll(base: string, tracked: seq<string>, existing: set<string>)
    returns (cmds: seq<Cmd>, dirs: set<string>)
    ensures dirs == existing + Destinations(base, tracked)
    ensures cmds == SyncCommands(base, tracked)
  {
    dirs := MakeDestinations(base, tracked, existing);
    cmds := SyncCommands(base, tracked);
  }

  /** Every rsync command of the block copies a tracked path into a directory
      that the block created, lies inside the repository and holds the copy
      at `base + p` (up to repeated slashes). */
  lemma RsyncDestinations(base: string, tracked: seq<string>, i: nat)
    requires base == [] || base[|base| - 1] != '/'
    requires i < |tracked|
    requires tracked[i] != [] && tracked[i][0] == '/'
    ensures SyncCommands(base, tracked)[i][4] in Destinations(base, tracked)
    ensures base <= SyncCommands(base, tracked)[i][4] <= base + tracked[i]
    ensures Basename(base + tracked[i]) == Basename(tracked[i])
  {
    var p := tracked[i];
    var c := SyncCommands(base, tracked);
    assert c[i][4] == Destination(base, p);
    assert p in tracked;
    DirnameBelowBase(base, p);
    assert '/' in p by { assert p[0] == '/'; }
    BasenameUnderBase(base, p);
  }

  /** The only rsync commands of the block are those of the tracked paths. */
  lemma {:induction false} SyncRsyncOnly(base: string, tracked: seq<string>, c: Cmd)
    requires c in SyncCommands(base, tracked)
    ensures c == GitAddAll || exists p :: p in tracked && c == RsyncCmd(base, p)
    decreases |tracked|
  {
    if tracked != [] && c != RsyncCmd(base, tracked[0]) {
      SyncRsyncOnly(base, tracked[1..], c);
      if c != GitAddAll {
        var p :| p in tracked[1..] && c == RsyncCmd(base, p);
        assert p in tracked;
      }
    }
  }
}
