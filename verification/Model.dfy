/** Domain vocabulary of the synchroniser (internal/mirror/model.go and strm.go). */
module Model {
  import opened Bytes
  import opened Records

  /** Path components below the task's local root; the same components name the cloud path. */
  type Path = seq<string>

  type Index = map<Path, Record>

  function RecAt(idx: Index, p: Path): Record {
    if p in idx then idx[p] else NO_RECORD
  }

  // ---- the local tree ----

  /** `Unreadable` is a listed non-directory whose `Info` call fails; `readable` says whether
      `os.ReadDir` succeeds on a directory. `text` is the content, used for `.strm` files. */
  datatype Entry = Dir(readable: bool) | File(size: int, text: string) | Unreadable

  type Tree = map<Path, Entry>

  ghost predicate IsDirAt(fs: Tree, p: Path) {
    p in fs && fs[p].Dir?
  }

  function Parent(p: Path): Path
    requires |p| > 0
  {
    p[..|p| - 1]
  }

  function Base(p: Path): string
    requires |p| > 0
  {
    p[|p| - 1]
  }

  // ---- file names ----

  /** `filepath.Ext`: from the last dot on. */
  function Ext(name: string): (r: string)
    ensures |r| <= |name|
  {
    var i := LastIndexByte(name, '.');
    if i < 0 then "" else name[i..]
  }

  /** The name without its extension. */
  function Stem(name: string): string {
    name[..|name| - |Ext(name)|]
  }

  lemma StemTrims(name: string)
    ensures Stem(name) == TrimSuffix(name, Ext(name))
  {
    var i := LastIndexByte(name, '.');
    assert i >= 0 ==> name[|name| - |Ext(name)|..] == Ext(name);
    assert i < 0 ==> Stem(name) == name;
  }

  /** `strings.EqualFold(filepath.Ext(path), ".strm")`, for ASCII letters. */
  predicate IsStrm(name: string) {
    Lower(Ext(name)) == ".strm"
  }

  /** `VideoToStrmPath` on the last component. */
  function StrmName(name: string): string {
    Stem(name) + ".strm"
  }

  function StrmKey(p: Path): Path
    requires |p| > 0
  {
    Parent(p) + [StrmName(Base(p))]
  }

  lemma LastDot(stem: string)
    ensures Ext(stem + ".strm") == ".strm" && Stem(stem + ".strm") == stem
  {
    var n, k := stem + ".strm", |stem|;
    assert n[k] == '.' && n[k..] == ".strm" && n[..k] == stem;
    LastIndexMeaning(n, '.');
  }

  lemma LowerStrm()
    ensures Lower(".strm") == ".strm"
  {}

  /** The extension is what follows the last dot, and that dot; without a dot it is empty. */
  predicate IsExtension(name: string, ext: string) {
    && |ext| <= |name| && name[|name| - |ext|..] == ext
    && (if ext == "" then '.' !in name else ext[0] == '.' && '.' !in ext[1..])
  }

  lemma CharsFrom(s: string)
    ensures forall i, k :: 0 <= i <= k < |s| ==> s[k] in s[i..]
  {
    forall i, k | 0 <= i <= k < |s| ensures s[k] in s[i..] { assert s[i..][k - i] == s[k]; }
  }

  /** A dot with none after it is the last one. */
  lemma DotIsLast(name: string, k: nat)
    requires k < |name| && name[k] == '.' && '.' !in name[k + 1..]
    ensures LastIndexByte(name, '.') == k
  {
    var i := LastIndexByte(name, '.');
    LastIndexMeaning(name, '.');
    CharsFrom(name);
  }

  lemma ExtExactly(name: string, ext: string)
    ensures ext == Ext(name) <==> IsExtension(name, ext)
  {
    var i := LastIndexByte(name, '.');
    LastIndexMeaning(name, '.');
    if IsExtension(name, ext) && ext != "" {
      assert name[|name| - |ext|..][1..] == name[|name| - |ext| + 1..];
      DotIsLast(name, |name| - |ext|);
    }
    if ext == Ext(name) && i >= 0 { assert name[i..][1..] == name[i + 1..]; }
  }

  predicate Letter(c: char, small: char, capital: char) {
    c == small || c == capital
  }

  /** It ends in `.strm`, in letters of either size. */
  predicate EndsLikeALink(name: string) {
    var n := |name|;
    && n >= 5 && name[n - 5] == '.'
    && Letter(name[n - 4], 's', 'S') && Letter(name[n - 3], 't', 'T')
    && Letter(name[n - 2], 'r', 'R') && Letter(name[n - 1], 'm', 'M')
  }

  lemma IsStrmExactly(name: string)
    ensures IsStrm(name) <==> EndsLikeALink(name)
  {
    hide Ext;
    ExtExactly(name, Ext(name));
    if IsStrm(name) { LowersToStrm(Ext(name)); }
    if EndsLikeALink(name) {
      var ext := name[|name| - 5..];
      ExtExactly(name, ext);
      LowersToStrm(ext);
    }
  }

  lemma LowersToStrm(ext: string)
    ensures Lower(ext) == ".strm" <==> |ext| == 5 && EndsLikeALink(ext)
  {
    var low := Lower(ext);
    if |ext| == 5 {
      assert low == [low[0], low[1], low[2], low[3], low[4]];
    }
  }

  /** A video's extension is in the list, in letters of either size; the list is in small ones. */
  lemma IsVideoExtExactly(rules: Rules, name: string)
    ensures rules.IsVideoExt(name) <==> exists ext :: IsExtension(name, ext) && Lower(ext) in rules.videoExts
  {
    hide Ext;
    ExtExactly(name, Ext(name));
    if ext :| IsExtension(name, ext) && Lower(ext) in rules.videoExts { ExtExactly(name, ext); }
  }

  lemma StrmNameIsStrm(name: string)
    ensures IsStrm(StrmName(name)) && Stem(StrmName(name)) == Stem(name)
  {
    hide Ext, Lower;
    LastDot(Stem(name));
    assert Lower(".strm") == ".strm" by { LowerStrm(); }
  }

  // ---- rules, configuration, links ----

  const VIDEO_THRESHOLD: int := 10 * 1024 * 1024

  /** `excluded` stands for the glob list of `Rules.Excluded`. */
  datatype Rules = Rules(videoExts: set<string>, excluded: string -> bool) {
    predicate IsVideoExt(name: string) {
      Lower(Ext(name)) in videoExts
    }

    predicate IsVideo(name: string, size: int) {
      IsVideoExt(name) && size >= VIDEO_THRESHOLD
    }
  }

  /** The `.strm` link format. `trim` is what `ReadStrmFile` does to the raw content and
      `parse` is `ParsePickCode`; URL parsing stays abstract. */
  datatype Links = Links(strmURL: string, trim: string -> string, parse: string -> string) {
    function Content(pickCode: string): string {
      TrimSlashes(strmURL) + "/download?pickcode=" + pickCode
    }

    function PickCodeOf(text: string): string {
      parse(trim(text))
    }

    predicate NeedsFix(pickCode: string, text: string) {
      pickCode != "" && trim(text) != Content(pickCode)
    }

    /** Writing the link for this pickcode and reading it back gives the same pickcode and
        the same text. */
    predicate Stable(pickCode: string) {
      pickCode != "" && trim(Content(pickCode)) == Content(pickCode) && PickCodeOf(Content(pickCode)) == pickCode
    }
  }

  /** The text of a link: the configured address up to its last slashes, then the pickcode. */
  ghost predicate IsLinkText(strmURL: string, pickCode: string, text: string) {
    exists h :: WithoutSlashes(strmURL, h) && text == h + "/download?pickcode=" + pickCode
  }

  lemma ContentIsLinkText(links: Links, pickCode: string, text: string)
    ensures IsLinkText(links.strmURL, pickCode, text) <==> text == links.Content(pickCode)
  {
    hide TrimSlashes, WithoutSlashes;
    forall h ensures WithoutSlashes(links.strmURL, h) <==> h == TrimSlashes(links.strmURL) {
      TrimSlashesMeaning(links.strmURL, h);
    }
  }

  /** One task's scan settings: rules, `LocalCfg` and the link format. */
  datatype Setup = Setup(rules: Rules, toStrm: bool, excludeDir: Option<Path>, links: Links)

  // ---- operations ----

  datatype OpKind = Normalize | Mkdir | Upload | Adopt | Download | Retire | Drop | Archive {
    /** Order of execution in `Apply`. */
    function Phase(): nat {
      match this
      case Retire => 0
      case Drop => 0
      case Mkdir => 1
      case Upload => 2
      case Adopt => 2
      case Download => 3
      case Normalize => 3
      case Archive => 4
    }
  }

  datatype Op = Op(kind: OpKind, path: Path, size: int, isVideo: bool, fid: string, pickCode: string,
      replaceFid: string)

  function NewOp(kind: OpKind, path: Path): Op {
    Op(kind, path, 0, false, "", "", "")
  }

  function UploadOp(path: Path, size: int): Op {
    NewOp(Upload, path).(size := size)
  }

  function AdoptOp(path: Path, pickCode: string): Op {
    NewOp(Adopt, path).(pickCode := pickCode)
  }

  predicate IsClear(op: Op) {
    op.kind == Retire || op.kind == Drop
  }
}
