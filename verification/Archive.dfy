/**
 What the two sides keep on disk. The server holds one directory per recording session, named by its start time; the
 client holds a copy of each directory while it is being transferred and after.
 */
module Basics {
  type byte = x: int | 0 <= x < 256

  type Bytes = seq<byte>

  datatype Option<+T> = None | Some(value: T)
}

module Archive {
  import opened Basics

  /** A session's start time: the decoded name of its directory. */
  type Stamp = int

  /** The four files a logger writes when it stops. */
  datatype Meta = TofCsv | TofInfo | ImuCsv | ImuInfo

  /** The order in which the logger writes these files and in which the client requests them. */
  function MetaAt(k: nat): (m: Meta)
    requires k < 4
  {
    if k == 0 then TofCsv else if k == 1 then TofInfo else if k == 2 then ImuCsv else ImuInfo
  }

  /** How many of these files come before m in that order. */
  function MetaRank(m: Meta): (k: nat)
    ensures k < 4 && MetaAt(k) == m
  {
    match m
    case TofCsv => 0
    case TofInfo => 1
    case ImuCsv => 2
    case ImuInfo => 3
  }

  /** Numbered point clouds and metadata files, each with its content. */
  datatype Folder = Folder(clouds: map<nat, Bytes>, metas: map<Meta, Bytes>)

  const EMPTY_FOLDER := Folder(map[], map[])

  /** A server directory: `lidar` tells whether log0000 or log0001 holds the point clouds. */
  datatype Dir = Dir(lidar: nat, files: Folder)

  type Tree = map<Stamp, Dir>

  predicate IsOldest(t: Tree, d: Stamp) {
    d in t && forall e | e in t :: d <= e
  }

  predicate HasCloud(t: Tree, d: Stamp, lidar: nat, n: nat) {
    d in t && t[d].lidar == lidar && n in t[d].files.clouds
  }

  function WithoutCloud(t: Tree, d: Stamp, n: nat): Tree
    requires d in t
  {
    t[d := t[d].(files := t[d].files.(clouds := t[d].files.clouds - {n}))]
  }

  /** The file that the path built for metadata m finds, when the path was built with `lidar`. With the wrong number
      the two info.json files trade places and the data.csv paths do not exist. */
  function Resolve(t: Tree, d: Stamp, lidar: nat, m: Meta): Option<Bytes> {
    if d !in t then None
    else
      var metas := t[d].files.metas;
      var found := if lidar == t[d].lidar then Some(m)
                   else if m == TofInfo then Some(ImuInfo)
                   else if m == ImuInfo then Some(TofInfo)
                   else None;
      if found.Some? && found.value in metas then Some(metas[found.value]) else None
  }
}
