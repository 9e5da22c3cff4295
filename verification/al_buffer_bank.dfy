/** `ALBufferBank`: the cache of loaded buffers keyed by file name, the extension
    parser that chooses the decoder, and get-or-load. Decoding a file and uploading it
    to the device is the `Loader` parameter; the device calls the bank makes itself are
    recorded in the bank's event log. */
module ALBufferBank {
  import opened Base
  import opened ALBuffer

  /** The two decoders `addSound` dispatches to: `setWaveFile` and `setVorbisFile`. */
  datatype Format = Wav | Ogg

  /** Decodes the file at a path into a fresh device buffer and describes it, or fails. */
  type Loader = (Format, string) -> Result<Buffer>

  /** What the bank asks of the device: a new buffer name, then decoding into it. */
  datatype Event = GenBuffer | Decode(format: Format, path: string)

  datatype Bank = Bank(entries: map<string, Buffer>, log: seq<Event>)

  /** A bank operation's result: the bank after the call, and its value or exception. */
  datatype Loaded<T> = Loaded(bank: Bank, r: Result<T>)

  /** The directory `addSound` prefixes to every file name. */
  const SOUND_DIR: string := "res/sound/"

  /** A name that is its own storage key: non-empty and without a path separator. */
  predicate Plain(name: string) {
    name != "" && '/' !in name
  }

  // ---- Text helpers ----

  /** Index of the last `c` in `s`, or -1 when there is none. */
  function LastIndex(s: string, c: char): (k: int)
    ensures -1 <= k < |s|
    ensures k >= 0 ==> s[k] == c
    ensures forall j :: k < j < |s| ==> s[j] != c
    decreases |s|
  {
    if |s| == 0 then -1
    else if s[|s| - 1] == c then |s| - 1
    else LastIndex(s[..|s| - 1], c)
  }

  /** `LastIndex` is characterised by its contract: an occurrence with none after it. */
  lemma LastIndexAt(s: string, c: char, k: int)
    requires 0 <= k < |s| && s[k] == c && forall j :: k < j < |s| ==> s[j] != c
    ensures LastIndex(s, c) == k
  {
  }

  /** The text after the last `c` of `s` (all of `s` when it has none). */
  function AfterLast(s: string, c: char): (r: string)
    ensures c !in r
  {
    s[LastIndex(s, c) + 1..]
  }

  /** `s` without its trailing run of `c`. */
  function StripTrailing(s: string, c: char): (r: string)
    ensures |r| <= |s| && r == s[..|r|]
    ensures r == "" || r[|r| - 1] != c
    decreases |s|
  {
    if |s| > 0 && s[|s| - 1] == c then StripTrailing(s[..|s| - 1], c) else s
  }

  /** The pieces between the occurrences of `c`: k occurrences give k + 1 pieces. */
  function Split(s: string, c: char): (r: seq<string>)
    ensures |r| >= 1
    decreases |s|
  {
    var k := LastIndex(s, c);
    if k < 0 then [s] else Split(s[..k], c) + [s[k + 1..]]
  }

  function DropTrailingEmpty(parts: seq<string>): (r: seq<string>)
    ensures |r| <= |parts| && r == parts[..|r|]
    ensures r == [] || r[|r| - 1] != ""
  {
    if |parts| > 0 && parts[|parts| - 1] == "" then DropTrailingEmpty(parts[..|parts| - 1])
    else parts
  }

  /** `String.split` with a one-character literal pattern and no limit: the whole
      string when the pattern does not occur, otherwise the pieces with the trailing
      empty ones removed. */
  function JavaSplit(s: string, c: char): seq<string> {
    if c !in s then [s] else DropTrailingEmpty(Split(s, c))
  }

  /** `String.toLowerCase`, on the ASCII letters. */
  function Lower(s: string): (r: string)
    ensures |r| == |s|
    ensures forall i :: 0 <= i < |s| ==>
              r[i] == (if 'A' <= s[i] <= 'Z' then (s[i] as int + 32) as char else s[i])
  {
    seq(|s|, i requires 0 <= i < |s| =>
      if 'A' <= s[i] <= 'Z' then (s[i] as int + 32) as char else s[i])
  }

  // ---- File names and extensions ----

  /** `new File(path).getName()` with the Unix separator: the last non-empty component. */
  function FileName(path: string): string {
    AfterLast(StripTrailing(path, '/'), '/')
  }

  /** The computation `getExtension` performs on a file whose name is `name`: split on
      dots (trailing empty pieces dropped) and take the last piece, lower-cased, when
      there are at least two. */
  function SplitExtension(name: string): Option<string> {
    var parts := JavaSplit(name, '.');
    if |parts| <= 1 then None else Some(Lower(parts[|parts| - 1]))
  }

  lemma {:induction false} SplitIgnoresTrailingSeparators(s: string, c: char)
    ensures DropTrailingEmpty(Split(s, c)) == DropTrailingEmpty(Split(StripTrailing(s, c), c))
    decreases |s|
  {
    if |s| > 0 && s[|s| - 1] == c {
      var init := s[..|s| - 1];
      assert s[|s|..] == "";
      var parts := Split(init, c) + [""];
      assert Split(s, c) == parts;
      assert parts[..|parts| - 1] == Split(init, c);
      SplitIgnoresTrailingSeparators(init, c);
    }
  }

  /** The extension is the last dot-separated piece once the trailing dots are gone,
      lower-cased; a name whose remainder holds no dot (no dot at all, "abc.", "...",
      the empty name) has none. */
  lemma ExtensionIsLastPiece(name: string)
    ensures var t := StripTrailing(name, '.');
            SplitExtension(name) == (if '.' in t then Some(Lower(AfterLast(t, '.'))) else None)
  {
    var t := StripTrailing(name, '.');
    if '.' in name {
      var k := LastIndex(t, '.');
      if k >= 0 {
        assert t[k] == '.';
        assert AfterLast(t, '.') == t[k + 1..];
        ExtensionWithDot(name, t, k);
      } else {
        assert '.' !in t;
        ExtensionWithoutDot(name, t);
      }
    } else {
      assert |name| == 0 || name[|name| - 1] != '.';
      assert t == name;
      assert JavaSplit(name, '.') == [name];
    }
  }

  /** The branch of `ExtensionIsLastPiece` where the remainder `t` has a dot, the last
      one at `k`: `t` ends in a non-empty piece, which is the last one kept. */
  lemma ExtensionWithDot(name: string, t: string, k: int)
    requires '.' in name && t == StripTrailing(name, '.')
    requires 0 <= k == LastIndex(t, '.')
    ensures SplitExtension(name) == Some(Lower(t[k + 1..]))
  {
    SplitIgnoresTrailingSeparators(name, '.');
    assert k < |t| - 1;
    var parts := Split(t[..k], '.') + [t[k + 1..]];
    assert Split(t, '.') == parts;
    assert t[k + 1..] != "";
    assert DropTrailingEmpty(parts) == parts;
    assert JavaSplit(name, '.') == parts;
  }

  /** The branch of `ExtensionIsLastPiece` where a name with a dot has a remainder `t`
      without one: every dot was trailing, so at most one piece is left. */
  lemma ExtensionWithoutDot(name: string, t: string)
    requires '.' in name && t == StripTrailing(name, '.') && LastIndex(t, '.') < 0
    ensures SplitExtension(name) == None
  {
    SplitIgnoresTrailingSeparators(name, '.');
    assert Split(t, '.') == [t];
    if t == "" {
      assert DropTrailingEmpty([""]) == [];
    }
  }

  /** `getExtension` of a file whose name is `name`: the lower-cased text after the
      last dot once the trailing dots are gone; none when no dot is left (no dot at
      all, "abc.", "...", the empty name). */
  function GetExtension(name: string): (e: Option<string>)
    ensures var t := StripTrailing(name, '.');
            e == (if '.' in t then Some(Lower(AfterLast(t, '.'))) else None)
  {
    ExtensionIsLastPiece(name);
    SplitExtension(name)
  }

  /** Removing a trailing run of `c` from a text followed by more `c`s ends at the same
      place. */
  lemma {:induction false} StripTrailingRun(name: string, run: string, c: char)
    requires forall i :: 0 <= i < |run| ==> run[i] == c
    ensures StripTrailing(name + run, c) == StripTrailing(name, c)
    decreases |run|
  {
    if |run| > 0 {
      assert (name + run)[..|name + run| - 1] == name + run[..|run| - 1];
      StripTrailingRun(name, run[..|run| - 1], c);
    } else {
      assert name + run == name;
    }
  }

  /** Trailing dots never change the extension. */
  lemma TrailingDotsIgnored(name: string, dots: string)
    requires forall i :: 0 <= i < |dots| ==> dots[i] == '.'
    ensures GetExtension(name + dots) == GetExtension(name)
  {
    StripTrailingRun(name, dots, '.');
  }

  /** A name of the form `base.ext`, `ext` a non-empty text without a dot, has the
      lower-cased `ext` as extension, whatever `base` is (empty, or holding dots). */
  lemma ExtensionOfDottedName(base: string, ext: string)
    requires ext != "" && '.' !in ext
    ensures GetExtension(base + "." + ext) == Some(Lower(ext))
  {
    var name := base + "." + ext;
    assert name[|name| - 1] == ext[|ext| - 1];
    assert StripTrailing(name, '.') == name;
    assert name[|base|] == '.';
    assert forall j :: |base| < j < |name| ==> name[j] == ext[j - |base| - 1];
    LastIndexAt(name, '.', |base|);
    assert name[|base| + 1..] == ext;
  }

  /** A name without a dot, followed by any number of dots, has no extension. */
  lemma NoDotNoExtension(name: string, dots: string)
    requires '.' !in name
    requires forall i :: 0 <= i < |dots| ==> dots[i] == '.'
    ensures GetExtension(name + dots) == None
  {
    StripTrailingRun(name, dots, '.');
    assert |name| == 0 || name[|name| - 1] != '.';
    assert StripTrailing(name, '.') == name;
  }

  lemma {:induction false} StripKeepsPrefix(p: string, q: string, c: char)
    requires |p| > 0 && p[|p| - 1] != c
    ensures |StripTrailing(p + q, c)| >= |p|
    decreases |q|
  {
    if |q| > 0 && q[|q| - 1] == c {
      assert (p + q)[..|p + q| - 1] == p + q[..|q| - 1];
      StripKeepsPrefix(p, q[..|q| - 1], c);
    }
  }

  /** The storage key `addSound` uses is a plain name. */
  lemma StorageKeyIsPlain(filename: string)
    ensures Plain(KeyOf(filename))
  {
    var t := StripTrailing(PathOf(filename), '/');
    StripKeepsPrefix("res/sound", "/" + filename, '/');
    assert PathOf(filename) == "res/sound" + ("/" + filename);
    assert t[|t| - 1] != '/';
    assert LastIndex(t, '/') < |t| - 1;
  }

  /** The key a file is stored under equals the name it is looked up by exactly when
      that name is plain. */
  lemma StorageKeyMatchesLookup(filename: string)
    ensures KeyOf(filename) == filename <==> Plain(filename)
  {
    var path := PathOf(filename);
    StorageKeyIsPlain(filename);
    if Plain(filename) {
      assert path[|path| - 1] == filename[|filename| - 1];
      assert StripTrailing(path, '/') == path;
      assert path[|SOUND_DIR| - 1] == '/';
      assert forall j :: |SOUND_DIR| <= j < |path| ==> path[j] == filename[j - |SOUND_DIR|];
      assert LastIndex(path, '/') == |SOUND_DIR| - 1;
      assert path[|SOUND_DIR|..] == filename;
    }
  }

  // ---- The bank ----

  /** The file `addSound` reads for `filename`. */
  function PathOf(filename: string): string {
    SOUND_DIR + filename
  }

  /** The key `addSound` stores the descriptor of `filename` under. */
  function KeyOf(filename: string): string {
    FileName(PathOf(filename))
  }

  /** The extension `addSound` dispatches on: `getExtension` of the stored name, by
      the split computation itself (equal to `GetExtension`, see `ExtensionOfIsGetExtension`). */
  function ExtensionOf(filename: string): Option<string> {
    SplitExtension(KeyOf(filename))
  }

  lemma ExtensionOfIsGetExtension(filename: string)
    ensures ExtensionOf(filename) == GetExtension(KeyOf(filename))
  {
  }

  /** The cases of the switch in `addSound`. */
  function FormatOf(ext: Option<string>): (f: Option<Format>)
    ensures f == Some(Wav) <==> ext == Some("wav")
    ensures f == Some(Ogg) <==> ext == Some("ogg")
  {
    match ext
    case Some("wav") => Some(Wav)
    case Some("ogg") => Some(Ogg)
    case _ => None
  }

  /** `addSound`: a device buffer is generated first; the extension of the stored name
      then picks the decoder, an unknown one throws `IOException` and a missing one
      fails in the switch; only a successful load is stored, under the file's name. */
  function AddSound(bank: Bank, filename: string, load: Loader): (o: Loaded<()>)
    ensures bank.log + [GenBuffer] <= o.bank.log
    ensures o.r.Err? ==> o.bank.entries == bank.entries
    ensures ExtensionOf(filename) == None ==>
              o == Loaded(bank.(log := bank.log + [GenBuffer]), Err(NullPointer))
    ensures ExtensionOf(filename).Some? && FormatOf(ExtensionOf(filename)) == None ==>
              o == Loaded(bank.(log := bank.log + [GenBuffer]), Err(IOFailure))
    ensures FormatOf(ExtensionOf(filename)).Some? ==>
              var fmt := FormatOf(ExtensionOf(filename)).value;
              && o.bank.log == bank.log + [GenBuffer, Decode(fmt, PathOf(filename))]
              && o.r.Ok? == load(fmt, PathOf(filename)).Ok?
              && (o.r.Ok? ==> o.bank.entries == bank.entries[KeyOf(filename) := load(fmt, PathOf(filename)).value])
  {
    var generated := bank.(log := bank.log + [GenBuffer]);
    match FormatOf(ExtensionOf(filename))
    case None =>
      Loaded(generated, Err(if ExtensionOf(filename).None? then NullPointer else IOFailure))
    case Some(fmt) => LoadInto(generated, PathOf(filename), KeyOf(filename), fmt, load)
  }

  /** The decoding half of `addSound`, once the format is known: decode the file at
      `path` and store its descriptor under `key`. */
  function LoadInto(bank: Bank, path: string, key: string, fmt: Format, load: Loader): (o: Loaded<()>)
    ensures o.bank.log == bank.log + [Decode(fmt, path)]
    ensures o.r.Ok? == load(fmt, path).Ok?
    ensures o.bank.entries == (if o.r.Ok? then bank.entries[key := load(fmt, path).value] else bank.entries)
  {
    var decoded := bank.(log := bank.log + [Decode(fmt, path)]);
    match load(fmt, path)
    case Err(f) => Loaded(decoded, Err(f))
    case Ok(b) => Loaded(decoded.(entries := decoded.entries[key := b]), Ok(()))
  }

  /** `getSound`: the cached descriptor when the name is a key; otherwise load, then
      look the name up again, which finds nothing when the name was not plain. */
  function GetSound(bank: Bank, filename: string, load: Loader): (o: Loaded<Option<Buffer>>)
    ensures filename in bank.entries ==> o == Loaded(bank, Ok(Some(bank.entries[filename])))
    ensures filename !in bank.entries ==>
              bank.log + [GenBuffer] <= o.bank.log
    ensures o.r.Ok? ==> o.r.value == (if filename in o.bank.entries
                                      then Some(o.bank.entries[filename]) else None)
  {
    if filename in bank.entries then
      Loaded(bank, Ok(Some(bank.entries[filename])))
    else
      var added := AddSound(bank, filename, load);
      match added.r
      case Err(f) => Loaded(added.bank, Err(f))
      case Ok(_) =>
        Loaded(added.bank, Ok(if filename in added.bank.entries
                              then Some(added.bank.entries[filename]) else None))
  }

  /** Every key of the bank is plain. */
  ghost predicate KeysPlain(bank: Bank) {
    forall k :: k in bank.entries ==> Plain(k)
  }

  lemma AddSoundKeepsKeysPlain(bank: Bank, filename: string, load: Loader)
    requires KeysPlain(bank)
    ensures KeysPlain(AddSound(bank, filename, load).bank)
  {
    StorageKeyIsPlain(filename);
  }

  /** A plain name that loaded once is served from the cache on the next call. */
  lemma PlainNameIsCached(bank: Bank, filename: string, load: Loader)
    requires Plain(filename)
    requires GetSound(bank, filename, load).r.Ok?
    ensures var first := GetSound(bank, filename, load);
            && first.r.value.Some?
            && GetSound(first.bank, filename, load) == Loaded(first.bank, first.r)
  {
    StorageKeyMatchesLookup(filename);
  }

  /** A name with a path separator (or the empty name) is never a key, so every call
      loads the file again, and a successful call answers null. */
  lemma PathNameAlwaysReloads(bank: Bank, filename: string, load: Loader)
    requires KeysPlain(bank)
    requires !Plain(filename)
    ensures var o := GetSound(bank, filename, load);
            && bank.log + [GenBuffer] <= o.bank.log
            && KeysPlain(o.bank)
            && (o.r.Ok? ==> o.r.value == None)
  {
    AddSoundKeepsKeysPlain(bank, filename, load);
  }

  /** Looking up a plain name never changes what is stored under another key. */
  lemma PlainLookupKeepsEntries(bank: Bank, filename: string, load: Loader)
    requires Plain(filename)
    ensures var o := GetSound(bank, filename, load);
            && (forall k :: k in bank.entries ==> k in o.bank.entries && o.bank.entries[k] == bank.entries[k])
            && (o.r.Ok? ==> filename in o.bank.entries && o.r.value == Some(o.bank.entries[filename]))
  {
    StorageKeyMatchesLookup(filename);
  }

  /** `getBuffers`: `getSound` on each name in order; the first exception aborts. */
  function GetBuffers(bank: Bank, filenames: seq<string>, load: Loader)
    : (o: Loaded<seq<Option<Buffer>>>)
    ensures o.r.Ok? ==> |o.r.value| == |filenames|
    decreases |filenames|
  {
    if |filenames| == 0 then Loaded(bank, Ok([]))
    else
      var first := GetSound(bank, filenames[0], load);
      match first.r
      case Err(f) => Loaded(first.bank, Err(f))
      case Ok(b) =>
        var rest := GetBuffers(first.bank, filenames[1..], load);
        match rest.r
        case Err(f) => Loaded(rest.bank, Err(f))
        case Ok(bs) => Loaded(rest.bank, Ok([b] + bs))
  }

  /** With plain names, element i of a successful `getBuffers` is the descriptor the
      bank ends up holding for name i, and nothing cached before is replaced. */
  lemma {:induction false} GetBuffersOfPlainNames(bank: Bank, filenames: seq<string>, load: Loader)
    requires forall i :: 0 <= i < |filenames| ==> Plain(filenames[i])
    ensures var o := GetBuffers(bank, filenames, load);
            && (forall k :: k in bank.entries ==> k in o.bank.entries && o.bank.entries[k] == bank.entries[k])
            && (o.r.Ok? ==> forall i :: 0 <= i < |filenames| ==>
                  filenames[i] in o.bank.entries && o.r.value[i] == Some(o.bank.entries[filenames[i]]))
    decreases |filenames|
  {
    if |filenames| > 0 {
      var first := GetSound(bank, filenames[0], load);
      var o := GetBuffers(bank, filenames, load);
      PlainLookupKeepsEntries(bank, filenames[0], load);
      if first.r.Err? {
        assert o.bank == first.bank;
      } else {
        var rest := GetBuffers(first.bank, filenames[1..], load);
        assert o.bank == rest.bank;
        GetBuffersOfPlainNames(first.bank, filenames[1..], load);
        if rest.r.Ok? {
          assert o.r.value == [first.r.value] + rest.r.value;
          PlainNamesJoin(filenames, first.r.value, rest.r.value, o.bank.entries);
        }
      }
    }
  }

  /** The last step of `GetBuffersOfPlainNames`: the first name's descriptor in front
      of the rest's, all still held by the final cache. */
  lemma PlainNamesJoin(filenames: seq<string>, head: Option<Buffer>, tail: seq<Option<Buffer>>,
                       entries: map<string, Buffer>)
    requires |filenames| > 0 && |tail| == |filenames| - 1
    requires filenames[0] in entries && head == Some(entries[filenames[0]])
    requires forall i :: 0 <= i < |tail| ==>
               filenames[1..][i] in entries && tail[i] == Some(entries[filenames[1..][i]])
    ensures forall i :: 0 <= i < |filenames| ==>
              filenames[i] in entries && ([head] + tail)[i] == Some(entries[filenames[i]])
  {
    forall i | 0 < i < |filenames|
      ensures filenames[i] in entries && ([head] + tail)[i] == Some(entries[filenames[i]])
    {
      assert filenames[i] == filenames[1..][i - 1];
    }
  }

  /** A key handed to the bank's `HashMap.get`, which accepts any object: a file name,
      or the boxed loop index `clear` passes. */
  datatype Key = Name(name: string) | Boxed(index: int)

  /** `buffers.get(key)`: only a file name can be present in a map keyed by names. */
  function Lookup(bank: Bank, key: Key): (b: Option<Buffer>)
    ensures b.Some? <==> key.Name? && key.name in bank.entries
  {
    match key
    case Name(n) => if n in bank.entries then Some(bank.entries[n]) else None
    case Boxed(_) => None
  }

  /** The loop of `clear` as written, from index `i`: it asks the map for the boxed
      indices 0 .. size - 1 and destroys what it gets; the ids it destroys, in order. */
  function ClearAsWrittenFrom(bank: Bank, i: nat): (freed: seq<int>)
    ensures i <= |bank.entries| ==> |freed| <= |bank.entries| - i
    decreases |bank.entries| - i
  {
    if i >= |bank.entries| then []
    else
      (match Lookup(bank, Boxed(i)) case Some(b) => [b.bufferId] case None => [])
      + ClearAsWrittenFrom(bank, i + 1)
  }

  /** Whatever the bank holds, `clear` as written destroys no buffer. */
  lemma {:induction false} ClearAsWrittenFreesNothing(bank: Bank, i: nat)
    ensures ClearAsWrittenFrom(bank, i) == []
    decreases |bank.entries| - i
  {
    if i < |bank.entries| {
      ClearAsWrittenFreesNothing(bank, i + 1);
    }
  }

  /** One loaded clip is enough to see it: its buffer stays on the device. */
  lemma ClearAsWrittenKeepsLoadedClip()
    ensures var bank := Bank(map["a.wav" := Buffer(7, 4096, 1)], []);
            && Lookup(bank, Name("a.wav")) == Some(Buffer(7, 4096, 1))
            && 7 !in ClearAsWrittenFrom(bank, 0)
  {
    ClearAsWrittenFreesNothing(Bank(map["a.wav" := Buffer(7, 4096, 1)], []), 0);
  }

  /** `clear` as its comment promises ("frees all buffers"): every buffer the bank
      holds is destroyed once, in the map's iteration order (which Java leaves open). */
  method ClearBank(bank: Bank) returns (freed: seq<int>)
    ensures |freed| == |bank.entries|
    ensures forall k :: k in bank.entries ==> bank.entries[k].bufferId in freed
    ensures forall j :: 0 <= j < |freed| ==> exists k :: k in bank.entries && bank.entries[k].bufferId == freed[j]
  {
    freed := [];
    var left := bank.entries.Keys;
    while left != {}
      invariant left <= bank.entries.Keys
      invariant |freed| + |left| == |bank.entries|
      invariant forall k :: k in bank.entries && k !in left ==> bank.entries[k].bufferId in freed
      invariant forall j :: 0 <= j < |freed| ==> exists k :: k in bank.entries && bank.entries[k].bufferId == freed[j]
      decreases |left|
    {
      var k :| k in left;
      freed := freed + [bank.entries[k].bufferId];
      left := left - {k};
    }
  }
}
