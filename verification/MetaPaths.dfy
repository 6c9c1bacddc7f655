/**
 The paths of files below the server's data directory: as the client prints them in its requests for metadata, as the
 server builds them for point clouds, and as the data directory resolves them.
 */
module MetaPaths {
  import opened Basics
  import opened Archive
  import opened Text
  import opened Timestamps
  import opened Wire

  const DATA_DIR := "../../data_generation/generated_data"

  function OtherLog(lidar: nat): nat {
    if lidar == 0 then 1 else 0
  }

  function CsvSuffix(lidar: nat): string {
    LOG + Pad4(lidar) + "/run/mpa/tof/data.csv"
  }

  function ImuSuffix(log: nat): string {
    LOG + Pad4(log) + "/run/mpa/vvpx4_body_wrt_local/data.csv"
  }

  function InfoSuffix(log: nat): string {
    LOG + Pad4(log) + "/info.json"
  }

  function MetaSuffix(lidar: nat, m: Meta): string {
    match m
    case TofCsv => CsvSuffix(lidar)
    case TofInfo => InfoSuffix(lidar)
    case ImuCsv => ImuSuffix(OtherLog(lidar))
    case ImuInfo => InfoSuffix(OtherLog(lidar))
  }

  /** The path the client requests for metadata m of a session. */
  function MetaPath(name: string, lidar: nat, m: Meta): string {
    name + MetaSuffix(lidar, m)
  }

  /** Which metadata file, if any, a session directory has under a path. */
  function MetaUnder(suffix: string, lidar: nat): Option<Meta> {
    if suffix == CsvSuffix(lidar) then Some(TofCsv)
    else if suffix == InfoSuffix(lidar) then Some(TofInfo)
    else if suffix == ImuSuffix(OtherLog(lidar)) then Some(ImuCsv)
    else if suffix == InfoSuffix(OtherLog(lidar)) then Some(ImuInfo)
    else None
  }

  function TofPrefix(lidar: nat): string {
    LOG + Pad4(lidar) + "/run/mpa/tof/"
  }

  /** Which point cloud, if any, a session directory may have under a path. */
  function CloudUnder(suffix: string, lidar: nat): Option<nat> {
    if StartsWith(suffix, TofPrefix(lidar)) then
      var name := suffix[|TofPrefix(lidar)|..];
      var n := ExtractFileNumber(name);
      if n.Some? && n.value >= 0 && name == CloudName(n.value) then Some(n.value) else None
    else None
  }

  /** The file that a session directory has under a path. */
  function FileUnder(dir: Dir, suffix: string): Option<Bytes> {
    match MetaUnder(suffix, dir.lidar)
    case Some(m) => if m in dir.files.metas then Some(dir.files.metas[m]) else None
    case None =>
      match CloudUnder(suffix, dir.lidar)
      case Some(n) => if n in dir.files.clouds then Some(dir.files.clouds[n]) else None
      case None => None
  }

  /** The file that the data directory has under a path: metadata or a point cloud. */
  function Lookup(t: Tree, path: string): Option<Bytes> {
    if |path| < 15 || StringToTime(path[..15]) !in t then None
    else FileUnder(t[StringToTime(path[..15])], path[15..])
  }

  lemma SuffixesDiffer(i: nat, j: nat)
    requires i < 2 && j < 2
    ensures CsvSuffix(i) == CsvSuffix(j) <==> i == j
    ensures InfoSuffix(i) == InfoSuffix(j) <==> i == j
    ensures ImuSuffix(i) == ImuSuffix(j) <==> i == j
    ensures |CsvSuffix(i)| == 41 && |InfoSuffix(i)| == 30 && |ImuSuffix(i)| == 58
  {
    PadTwo(i);
    PadTwo(j);
    if i != j {
      assert CsvSuffix(i)[19] != CsvSuffix(j)[19];
      assert InfoSuffix(i)[19] != InfoSuffix(j)[19];
      assert ImuSuffix(i)[19] != ImuSuffix(j)[19];
    }
  }

  /** The file that is under the suffix printed for metadata m with one log number, in a directory with another. */
  function Found(lidar: nat, actual: nat, m: Meta): Option<Meta> {
    if lidar == actual then Some(m)
    else if m == TofInfo then Some(ImuInfo)
    else if m == ImuInfo then Some(TofInfo)
    else None
  }

  lemma SuffixFinds(lidar: nat, actual: nat, m: Meta)
    requires lidar < 2 && actual < 2
    ensures MetaUnder(MetaSuffix(lidar, m), actual) == Found(lidar, actual, m)
  {
    hide CsvSuffix, InfoSuffix, ImuSuffix;
    SuffixesDiffer(lidar, actual);
    SuffixesDiffer(OtherLog(lidar), actual);
    SuffixesDiffer(lidar, OtherLog(actual));
    SuffixesDiffer(OtherLog(lidar), OtherLog(actual));
  }

  /** No path printed for metadata leads to a point cloud. */
  lemma MetaIsNoCloud(lidar: nat, actual: nat, m: Meta)
    requires lidar < 2 && actual < 2 && Found(lidar, actual, m) == None
    ensures CloudUnder(MetaSuffix(lidar, m), actual) == None
  {
    hide CloudName, ExtractFileNumber, CsvSuffix, ImuSuffix, TofPrefix;
    PrefixesDiffer(lidar, actual);
    PrefixesDiffer(OtherLog(lidar), actual);
  }

  lemma PrefixesDiffer(lidar: nat, actual: nat)
    requires lidar < 2 && actual < 2
    ensures lidar != actual ==> !StartsWith(CsvSuffix(lidar), TofPrefix(actual))
    ensures !StartsWith(ImuSuffix(lidar), TofPrefix(actual))
  {
    PadTwo(lidar);
    PadTwo(actual);
    assert |TofPrefix(actual)| == 33 && TofPrefix(actual)[29] == 't' && ImuSuffix(lidar)[29] == 'v';
    if lidar != actual {
      assert CsvSuffix(lidar)[19] != TofPrefix(actual)[19];
    }
  }

  lemma CloudPathSplit(name: string, lidar: nat, n: nat)
    requires |name| == 15
    ensures var path := CloudPath(name, lidar, n);
            |path| >= 15 && path[..15] == name && path[15..] == TofPrefix(lidar) + CloudName(n)
  {
    hide PrintInt, Pad4;
    CloudPathParts(name, lidar, n);
    assert TOF == "/run/mpa/tof/" + "data_";
    Regrouped(LOG, Pad4(lidar), "/run/mpa/tof/", "data_", PrintInt(n), ".pcd");
  }

  lemma Regrouped(a: string, b: string, c: string, d: string, e: string, f: string)
    ensures a + (b + ((c + d) + e + f)) == (a + b + c) + (d + e + f)
  {
  }

  /** The path of a point cloud leads to no metadata. */
  lemma CloudIsNoMeta(lidar: nat, actual: nat, n: nat)
    requires lidar < 2 && actual < 2
    ensures MetaUnder(TofPrefix(lidar) + CloudName(n), actual) == None
  {
    hide PrintInt;
    PadTwo(lidar);
    PadTwo(actual);
    PadTwo(OtherLog(actual));
    var suffix := TofPrefix(lidar) + CloudName(n);
    assert suffix[21] == 'r' && suffix[29] == 't' && suffix[37] == '_';
    assert CsvSuffix(actual)[37] == '.' && InfoSuffix(actual)[21] == 'i' && InfoSuffix(OtherLog(actual))[21] == 'i';
    assert ImuSuffix(OtherLog(actual))[29] == 'v';
  }

  /** It leads to a point cloud only with the right log number. */
  lemma CloudSuffixFinds(lidar: nat, actual: nat, n: nat)
    requires lidar < 2 && actual < 2
    ensures CloudUnder(TofPrefix(lidar) + CloudName(n), actual) == if lidar == actual then Some(n) else None
  {
    hide ExtractFileNumber, CloudName;
    ExtractsNumber(n);
    var suffix := TofPrefix(lidar) + CloudName(n);
    if lidar == actual {
      assert suffix[|TofPrefix(lidar)|..] == CloudName(n);
    } else {
      PadTwo(lidar);
      PadTwo(actual);
      assert suffix[19] == TofPrefix(lidar)[19] != TofPrefix(actual)[19];
    }
  }

  function CloudAt(t: Tree, d: Stamp, lidar: nat, n: nat): Option<Bytes> {
    if HasCloud(t, d, lidar, n) then Some(t[d].files.clouds[n]) else None
  }

  /** Looking up a point cloud's path finds it if and only if it is there, under the right log number. */
  lemma CloudLookup(t: Tree, name: string, lidar: nat, n: nat)
    requires |name| == 15 && lidar < 2 && (StringToTime(name) in t ==> t[StringToTime(name)].lidar < 2)
    ensures Lookup(t, CloudPath(name, lidar, n)) == CloudAt(t, StringToTime(name), lidar, n)
  {
    hide StringToTime, CloudPath, MetaUnder, CloudUnder, TofPrefix, CloudName;
    CloudPathSplit(name, lidar, n);
    if StringToTime(name) in t {
      CloudIsNoMeta(lidar, t[StringToTime(name)].lidar, n);
      CloudSuffixFinds(lidar, t[StringToTime(name)].lidar, n);
    }
  }

  lemma MetaPathParts(name: string, lidar: nat, m: Meta)
    requires |name| == 15
    ensures var path := MetaPath(name, lidar, m);
            |path| >= 15 && path[..15] == name && path[15..] == MetaSuffix(lidar, m)
  {
    hide MetaSuffix;
  }

  /** Looking up the path that the client prints finds what the protocol says it finds, also when the client uses the
      wrong log number. */
  lemma LookupIsResolve(t: Tree, name: string, lidar: nat, m: Meta)
    requires |name| == 15 && lidar < 2 && (StringToTime(name) in t ==> t[StringToTime(name)].lidar < 2)
    ensures Lookup(t, MetaPath(name, lidar, m)) == Resolve(t, StringToTime(name), lidar, m)
  {
    hide StringToTime, MetaPath, MetaSuffix, MetaUnder, CloudUnder;
    MetaPathParts(name, lidar, m);
    if StringToTime(name) in t {
      var actual := t[StringToTime(name)].lidar;
      SuffixFinds(lidar, actual, m);
      if Found(lidar, actual, m) == None {
        MetaIsNoCloud(lidar, actual, m);
      }
    }
  }

  lemma CsvInFull()
    ensures CsvSuffix(0) == "/voxl-logger/log" + "0000" + "/run/mpa/tof/data.csv"
    ensures CsvSuffix(1) == "/voxl-logger/log" + "0001" + "/run/mpa/tof/data.csv"
  {
    PadTwo(0);
    PadTwo(1);
  }

  lemma InfoInFull()
    ensures InfoSuffix(0) == "/voxl-logger/log" + "0000" + "/info.json"
    ensures InfoSuffix(1) == "/voxl-logger/log" + "0001" + "/info.json"
  {
    PadTwo(0);
    PadTwo(1);
  }

  lemma ImuInFull()
    ensures ImuSuffix(0) == "/voxl-logger/log" + "0000" + "/run/mpa/vvpx4_body_wrt_local/data.csv"
    ensures ImuSuffix(1) == "/voxl-logger/log" + "0001" + "/run/mpa/vvpx4_body_wrt_local/data.csv"
  {
    PadTwo(0);
    PadTwo(1);
  }

  /** The four paths in full: the point clouds' own metadata in their log directory, the rest in the other. */
  lemma PathsInFull(name: string)
    ensures MetaPath(name, 0, TofCsv) == name + ("/voxl-logger/log" + "0000" + "/run/mpa/tof/data.csv")
    ensures MetaPath(name, 0, TofInfo) == name + ("/voxl-logger/log" + "0000" + "/info.json")
    ensures MetaPath(name, 0, ImuCsv) == name + ("/voxl-logger/log" + "0001" + "/run/mpa/vvpx4_body_wrt_local/data.csv")
    ensures MetaPath(name, 0, ImuInfo) == name + ("/voxl-logger/log" + "0001" + "/info.json")
    ensures MetaPath(name, 1, TofCsv) == name + ("/voxl-logger/log" + "0001" + "/run/mpa/tof/data.csv")
    ensures MetaPath(name, 1, TofInfo) == name + ("/voxl-logger/log" + "0001" + "/info.json")
    ensures MetaPath(name, 1, ImuCsv) == name + ("/voxl-logger/log" + "0000" + "/run/mpa/vvpx4_body_wrt_local/data.csv")
    ensures MetaPath(name, 1, ImuInfo) == name + ("/voxl-logger/log" + "0000" + "/info.json")
  {
    hide CsvSuffix, InfoSuffix, ImuSuffix;
    CsvInFull();
    InfoInFull();
    ImuInFull();
  }
}
