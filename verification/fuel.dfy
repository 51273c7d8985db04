/**
 Dataset naming and download decisions of `odin/fuel/__init__.py`: the
 name, archive path, folder path and link a `DataLoader` subclass derives
 from its class name and an optional extension, the argument checks of
 `unzip_folder`, the reuse/override decision of `get_dataset` over an
 abstract file system, and the dimension check of `load_glove`.
 */
module Fuel {
  import opened Common

  /** `DataLoader.ORIGIN`, base64-decoded. */
  const Origin: string := "https://s3.amazonaws.com/ai-datasets/"

  /** The archive extension. */
  const ZipExt: string := ".zip"

  /** `sub` occurs in `s` starting at index `i`. */
  predicate OccursAt(s: string, sub: string, i: int) {
    0 <= i <= |s| - |sub| && s[i..i + |sub|] == sub
  }

  /** `sub in s` for strings: `sub` occurs somewhere in `s`. */
  predicate Contains(s: string, sub: string) {
    exists i :: 0 <= i <= |s| - |sub| && OccursAt(s, sub, i)
  }

  /** `t` is a suffix of `s`. */
  predicate EndsWith(s: string, t: string) {
    |t| <= |s| && s[|s| - |t|..] == t
  }

  /** POSIX `os.path.join(base, name)`: an absolute `name` replaces the
      base; otherwise a separator is inserted unless the base is empty or
      already ends with one. */
  function Join(base: string, name: string): (r: string)
    ensures EndsWith(r, name)
    ensures |name| > 0 && name[0] == '/' ==> r == name
    ensures !(|name| > 0 && name[0] == '/') ==> |base| <= |r| <= |base| + 1 + |name| && r[..|base|] == base
  {
    if |name| > 0 && name[0] == '/' then name
    else if |base| == 0 || base[|base| - 1] == '/' then base + name
    else base + "/" + name
  }

  /** Appending to the joined name appends to the joined path, unless an
      absolute tail turns an empty name absolute. */
  lemma JoinAppend(base: string, name: string, tail: string)
    requires |name| > 0 || |tail| == 0 || tail[0] != '/'
    ensures Join(base, name + tail) == Join(base, name) + tail
  {
    var whole := name + tail;
    if |name| > 0 {
      assert whole[0] == name[0];
      if name[0] == '/' {
      } else if |base| == 0 || base[|base| - 1] == '/' {
        assert base + whole == (base + name) + tail;
      } else {
        assert base + "/" + whole == (base + "/" + name) + tail;
      }
    } else {
      assert whole == tail;
      if |base| == 0 || base[|base| - 1] == '/' {
        assert base + whole == (base + name) + tail;
      } else {
        assert base + "/" + whole == (base + "/" + name) + tail;
      }
    }
  }

  /** `DataLoader.get_name(ext)`: the class name, followed by `_` and the
      extension when one is given and not empty. */
  function GetName(cls: string, ext: Option<string>): (r: string)
    ensures |cls| <= |r| && r[..|cls|] == cls
    ensures r == cls <==> ext.None? || |ext.value| == 0
  {
    if ext.None? || |ext.value| == 0 then cls else cls + "_" + ext.value
  }

  /** The extension as `get_name` sees it: `None` and `''` both mean none. */
  function ExtOf(ext: Option<string>): string {
    if ext.None? then "" else ext.value
  }

  /** Two extensions name the same dataset of a class exactly when they
      are the same extension, `None` and `''` counting as equal. */
  lemma GetNameInjective(cls: string, e1: Option<string>, e2: Option<string>)
    ensures GetName(cls, e1) == GetName(cls, e2) <==> ExtOf(e1) == ExtOf(e2)
  {
    var n1, n2 := GetName(cls, e1), GetName(cls, e2);
    if ExtOf(e1) != "" && ExtOf(e2) != "" {
      assert n1 == cls + ("_" + ExtOf(e1)) && n2 == cls + ("_" + ExtOf(e2));
      PrefixCancel(cls, "_" + ExtOf(e1), "_" + ExtOf(e2));
      PrefixCancel("_", ExtOf(e1), ExtOf(e2));
    } else if ExtOf(e1) != "" {
      assert |n1| > |n2|;
    } else if ExtOf(e2) != "" {
      assert |n2| > |n1|;
    }
  }

  /** `get_ds_path(ext)`: the dataset folder under the base directory. */
  function DsPath(base: string, cls: string, ext: Option<string>): (r: string)
    ensures EndsWith(r, GetName(cls, ext))
  {
    Join(base, GetName(cls, ext))
  }

  /** `get_zip_path(ext)`: the archive under the base directory; it is
      the dataset folder path with `.zip` appended. */
  function ZipPath(base: string, cls: string, ext: Option<string>): (r: string)
    ensures r == DsPath(base, cls, ext) + ZipExt
    ensures EndsWith(r, GetName(cls, ext) + ZipExt)
  {
    JoinAppend(base, GetName(cls, ext), ZipExt);
    Join(base, GetName(cls, ext) + ZipExt)
  }

  /** `get_link(ext)`: the origin followed by the archive's file name. */
  function GetLink(cls: string, ext: Option<string>): (r: string)
    ensures |Origin| < |r| && r[..|Origin|] == Origin
    ensures EndsWith(r, GetName(cls, ext) + ZipExt)
  {
    Origin + (GetName(cls, ext) + ZipExt)
  }

  /** The downloaded file and the local archive carry the same file name:
      what follows the origin in the link ends the archive path. */
  lemma LinkMatchesZipPath(base: string, cls: string, ext: Option<string>)
    ensures EndsWith(ZipPath(base, cls, ext), GetLink(cls, ext)[|Origin|..])
  {
    assert GetLink(cls, ext)[|Origin|..] == GetName(cls, ext) + ZipExt;
  }

  /** The argument checks of `unzip_folder(zip_path, ...)`: the path must
      contain `.zip` and the file must exist; both failures are
      `ValueError`. */
  function UnzipChecks(zipPath: string, present: bool): (r: Result<string>)
    ensures r.Ok? <==> Contains(zipPath, ZipExt) && present
    ensures r.Err? ==> r.error == ValueError
    ensures r.Ok? ==> r.value == zipPath
  {
    if !Contains(zipPath, ZipExt) then Err(ValueError)
    else if !present then Err(ValueError)
    else Ok(zipPath)
  }

  /** Every archive path a loader derives passes the checks of
      `unzip_folder` once the archive exists. */
  lemma ZipPathAccepted(base: string, cls: string, ext: Option<string>)
    ensures UnzipChecks(ZipPath(base, cls, ext), true) == Ok(ZipPath(base, cls, ext))
  {
    var z := ZipPath(base, cls, ext);
    assert OccursAt(z, ZipExt, |z| - |ZipExt|);
  }

  /** What lies at the dataset folder path. */
  datatype Entry = Absent | RegularFile | Folder(entries: nat)

  /** The part of the file system `get_dataset` inspects: the dataset
      folder path and whether the archive exists. */
  datatype Disk = Disk(out: Entry, zipExists: bool)

  /** The file-system effects of `get_dataset`, in the order they happen. */
  datatype Step =
    | RemoveTree(path: string)
    | RemoveZip(path: string)
    | Download(fileName: string, link: string)
    | Unzip(zipPath: string, outPath: string)

  /** The dataset is opened from `path`, either as found or after the
      listed steps. */
  datatype Outcome = Reuse(path: string) | Fetch(steps: seq<Step>, path: string)

  /** `DataLoader.get_dataset(ext, override)`: a file at the folder path is
      an error; a non-empty folder is reused unless overriding; otherwise
      the folder is removed, the archive is removed when overriding,
      downloaded when missing, and unzipped into the folder. */
  function GetDataset(base: string, cls: string, ext: Option<string>, override: bool, disk: Disk): (r: Result<Outcome>)
    ensures r.Err? <==> disk.out.RegularFile?
    ensures r.Err? ==> r.error == RuntimeError
    ensures r.Ok? ==> r.value.path == DsPath(base, cls, ext)
  {
    var name := GetName(cls, ext) + ZipExt;
    var link := Origin + name;
    var zip, out := ZipPath(base, cls, ext), DsPath(base, cls, ext);
    if disk.out.RegularFile? then Err(RuntimeError)
    else if disk.out.Folder? && !(override || disk.out.entries == 0) then Ok(Reuse(out))
    else
      // the archive exists once it was kept or downloaded
      ZipPathAccepted(base, cls, ext);
      match UnzipChecks(zip, true)
      case Err(e) => Err(e)
      case Ok(_) => Ok(Fetch(FetchSteps(out, zip, name, link, disk, override), out))
  }

  /** The steps of a fetch: remove the folder if there is one, remove the
      archive if it exists and override is set, download it if it is then
      missing, and unzip it into the folder. */
  function FetchSteps(out: string, zip: string, name: string, link: string, disk: Disk, override: bool): seq<Step> {
    var removeTree := if disk.out.Folder? then [RemoveTree(out)] else [];
    var removeZip := if disk.zipExists && override then [RemoveZip(zip)] else [];
    var download := if !(disk.zipExists && !override) then [Download(name, link)] else [];
    removeTree + removeZip + download + [Unzip(zip, out)]
  }

  /** Which steps a fetch takes, whatever the paths. */
  lemma FetchStepsChosen(out: string, zip: string, name: string, link: string, disk: Disk, override: bool)
    ensures var steps := FetchSteps(out, zip, name, link, disk, override);
            && |steps| > 0
            && steps[|steps| - 1] == Unzip(zip, out)
            && (RemoveTree(out) in steps <==> disk.out.Folder?)
            && (RemoveZip(zip) in steps <==> disk.zipExists && override)
            && (Download(name, link) in steps <==> !disk.zipExists || override)
  {
    var steps := FetchSteps(out, zip, name, link, disk, override);
    if RemoveTree(out) in steps {
      var i :| 0 <= i < |steps| && steps[i] == RemoveTree(out);
    }
    if RemoveZip(zip) in steps {
      var i :| 0 <= i < |steps| && steps[i] == RemoveZip(zip);
    }
    if Download(name, link) in steps {
      var i :| 0 <= i < |steps| && steps[i] == Download(name, link);
    }
  }

  /** The decision of `get_dataset`: it reuses exactly a non-empty folder
      when not overriding, and otherwise removes the folder exactly when
      one exists, removes the archive exactly when it exists and override
      is set, downloads exactly when the archive is missing or override is
      set, and ends by unzipping the archive into the folder. */
  lemma GetDatasetDecision(base: string, cls: string, ext: Option<string>, override: bool, disk: Disk)
    requires !disk.out.RegularFile?
    ensures var r := GetDataset(base, cls, ext, override, disk);
            var zip, out := ZipPath(base, cls, ext), DsPath(base, cls, ext);
            var name := GetName(cls, ext) + ZipExt;
            && r.Ok?
            && (r.value.Reuse? <==> disk.out.Folder? && disk.out.entries > 0 && !override)
            && (r.value.Fetch? ==>
                  && |r.value.steps| > 0
                  && r.value.steps[|r.value.steps| - 1] == Unzip(zip, out)
                  && (RemoveTree(out) in r.value.steps <==> disk.out.Folder?)
                  && (RemoveZip(zip) in r.value.steps <==> disk.zipExists && override)
                  && (Download(name, Origin + name) in r.value.steps <==> !disk.zipExists || override))
  {
    var name := GetName(cls, ext) + ZipExt;
    FetchStepsChosen(DsPath(base, cls, ext), ZipPath(base, cls, ext), name, Origin + name, disk, override);
  }

  /** The state after `get_dataset`: a fetch leaves the extracted folder
      (with `extracted` entries) and no archive, since `unzip_folder` is
      called with `remove_zip=True`; a reuse changes nothing. */
  function After(disk: Disk, outcome: Outcome, extracted: nat): (r: Disk)
    ensures outcome.Reuse? ==> r == disk
    ensures outcome.Fetch? ==> r.out.Folder? && !r.zipExists
  {
    match outcome
    case Reuse(_) => disk
    case Fetch(_, _) => Disk(Folder(extracted), false)
  }

  /** Loading twice without override fetches at most once: once an archive
      with at least one entry has been unzipped, the next call reuses the
      folder. */
  lemma SecondLoadReuses(base: string, cls: string, ext: Option<string>, disk: Disk, extracted: nat)
    requires GetDataset(base, cls, ext, false, disk).Ok? && extracted > 0
    ensures var first := GetDataset(base, cls, ext, false, disk).value;
            GetDataset(base, cls, ext, false, After(disk, first, extracted)) == Ok(Reuse(DsPath(base, cls, ext)))
  {
  }

  /** Loading with override after a fetch starts over: the folder is
      removed, the archive downloaded again and unzipped. */
  lemma OverrideRefetches(base: string, cls: string, ext: Option<string>, disk: Disk, first: Outcome, extracted: nat)
    requires first.Fetch?
    ensures var zip, out := ZipPath(base, cls, ext), DsPath(base, cls, ext);
            var name := GetName(cls, ext) + ZipExt;
            GetDataset(base, cls, ext, true, After(disk, first, extracted))
              == Ok(Fetch([RemoveTree(out), Download(name, Origin + name), Unzip(zip, out)], out))
  {
    var zip, out := ZipPath(base, cls, ext), DsPath(base, cls, ext);
    var name := GetName(cls, ext) + ZipExt;
    assert FetchSteps(out, zip, name, Origin + name, After(disk, first, extracted), true)
        == [RemoveTree(out), Download(name, Origin + name), Unzip(zip, out)];
  }

  /** The embedding sizes `load_glove` offers. */
  const GloveDims: set<int> := {50, 100, 200, 300}

  /** `load_glove(ndim)`: only the offered sizes are accepted (others raise
      `ValueError`); the link is the origin followed by `glove.6B.<ndim>d`. */
  function LoadGlove(ndim: int): (r: Result<string>)
    ensures r.Ok? <==> ndim in GloveDims
    ensures r.Err? ==> r.error == ValueError
    ensures r.Ok? ==> |Origin| < |r.value| && r.value[..|Origin|] == Origin
  {
    if ndim !in GloveDims then Err(ValueError)
    else Ok(Origin + "glove.6B." + NatToString(ndim) + "d")
  }

  /** Different sizes download different files. */
  lemma GloveLinksDistinct(a: int, b: int)
    requires LoadGlove(a).Ok? && LoadGlove(b).Ok?
    ensures LoadGlove(a) == LoadGlove(b) <==> a == b
  {
    if LoadGlove(a) == LoadGlove(b) {
      var p := Origin + "glove.6B.";
      assert LoadGlove(a).value == p + (NatToString(a) + "d");
      assert LoadGlove(b).value == p + (NatToString(b) + "d");
      PrefixCancel(p, NatToString(a) + "d", NatToString(b) + "d");
      assert NatToString(a) == (NatToString(a) + "d")[..|NatToString(a) + "d"| - 1];
      assert NatToString(b) == (NatToString(b) + "d")[..|NatToString(b) + "d"| - 1];
      NatToStringInjective(a, b);
    }
  }
}
