/** src/lib/resourceuploader.ts: the random suffix `makeid`, and the object key and public URL
    `uploadFile` derives for a downloaded file. `Math.random()`, `uuidv4()` and `Date.now()` are
    inputs; the download and the object-store upload are reduced to their outcome. */
module ResourceUploader {
  import opened Js
  import Utils

  // ---------------------------------------------------------------------------
  // makeid

  const UpperLetters: string := "ABCDEFGHIJKLMNOPQRSTUVWXYZ"
  const LowerLetters: string := "abcdefghijklmnopqrstuvwxyz"
  const DecimalDigits: string := "0123456789"

  /** The 62-character alphabet of `makeid`: upper-case letters, lower-case letters, digits. */
  const Characters: string := UpperLetters + LowerLetters + DecimalDigits

  predicate IsAlnum(c: char) {
    'A' <= c <= 'Z' || 'a' <= c <= 'z' || '0' <= c <= '9'
  }

  /** Draws of `Math.random()` lie in [0, 1). */
  predicate ValidDraws(draws: seq<real>) {
    forall i :: 0 <= i < |draws| ==> 0.0 <= draws[i] < 1.0
  }

  /** `characters.charAt(Math.floor(draw * charactersLength))`. */
  function CharFor(draw: real): (c: char)
    requires 0.0 <= draw < 1.0
    ensures IsAlnum(c)
  {
    AlphabetAlnum();
    Characters[(draw * |Characters| as real).Floor]
  }

  lemma UpperLettersAlnum()
    ensures forall i :: 0 <= i < |UpperLetters| ==> 'A' <= UpperLetters[i] <= 'Z'
  {
    forall i | 0 <= i < |UpperLetters| ensures 'A' <= UpperLetters[i] <= 'Z' {
      assert UpperLetters[i] == ('A' as int + i) as char;
    }
  }

  lemma LowerLettersAlnum()
    ensures forall i :: 0 <= i < |LowerLetters| ==> 'a' <= LowerLetters[i] <= 'z'
  {
    forall i | 0 <= i < |LowerLetters| ensures 'a' <= LowerLetters[i] <= 'z' {
      assert LowerLetters[i] == ('a' as int + i) as char;
    }
  }

  lemma DecimalDigitsAlnum()
    ensures forall i :: 0 <= i < |DecimalDigits| ==> '0' <= DecimalDigits[i] <= '9'
  {
    forall i | 0 <= i < |DecimalDigits| ensures '0' <= DecimalDigits[i] <= '9' {
      assert DecimalDigits[i] == ('0' as int + i) as char;
    }
  }

  /** The alphabet holds 62 ASCII letters and digits and nothing else. */
  lemma AlphabetAlnum()
    ensures |Characters| == 62
    ensures forall i :: 0 <= i < |Characters| ==> IsAlnum(Characters[i])
  {
    UpperLettersAlnum();
    LowerLettersAlnum();
    DecimalDigitsAlnum();
  }

  /** The identifier `makeid` builds from the draws it consumed, one character per draw. */
  function IdFromDraws(draws: seq<real>): (id: string)
    requires ValidDraws(draws)
    ensures |id| == |draws|
    ensures forall i :: 0 <= i < |id| ==> IsAlnum(id[i])
  {
    seq(|draws|, i requires 0 <= i < |draws| => CharFor(draws[i]))
  }

  /** `makeid(length)`: `draws` are the values `Math.random()` returns, in order. */
  method MakeId(length: int, draws: seq<real>) returns (result: string)
    requires ValidDraws(draws) && |draws| >= length
    ensures |result| == if length < 0 then 0 else length
    ensures result == IdFromDraws(draws[..|result|])
    ensures forall i :: 0 <= i < |result| ==> IsAlnum(result[i])
  {
    result := "";
    var counter := 0;
    while counter < length
      invariant 0 <= counter <= (if length < 0 then 0 else length)
      invariant ValidDraws(draws[..counter])
      invariant result == IdFromDraws(draws[..counter])
    {
      result := result + [CharFor(draws[counter])];
      counter := counter + 1;
    }
  }

  // ---------------------------------------------------------------------------
  // Key derivation

  /** The path without its trailing slashes, as `path.basename` first removes them. */
  function StripTrailingSlashes(p: string): (r: string)
    ensures |r| <= |p| && r == p[..|r|]
    ensures r == [] || r[|r| - 1] != '/'
  {
    if |p| > 0 && p[|p| - 1] == '/' then StripTrailingSlashes(p[..|p| - 1]) else p
  }

  /** `path.basename(p)` for a POSIX path. */
  function Basename(p: string): string {
    Last(Split(StripTrailingSlashes(p), '/'))
  }

  /** The basename is the last path segment: slash-free, and all of a slash-free path. */
  lemma BasenameSegment(p: string)
    ensures '/' !in Basename(p)
    ensures '/' !in p ==> Basename(p) == p
  {
    var q := StripTrailingSlashes(p);
    LastPiece(q, '/');
    if '/' !in p {
      assert q == p;
    }
  }

  /** `path.basename(urlPath) || \`file-${Date.now()}\``. */
  function FileName(urlPath: string, now: nat): (f: string)
    ensures f != "" && '/' !in f
    ensures Basename(urlPath) != "" ==> f == Basename(urlPath)
    ensures Basename(urlPath) == "" ==> f == "file-" + NatToString(now)
  {
    BasenameSegment(urlPath);
    OrStr(Basename(urlPath), "file-" + NatToString(now))
  }

  /** `filename.split(".").pop() || "bin"`. */
  function Extension(filename: string): string {
    OrStr(Last(Split(filename, '.')), "bin")
  }

  /** `filename.split(".")[0] || "unnamed"`. */
  function Stem(filename: string): string {
    OrStr(Split(filename, '.')[0], "unnamed")
  }

  /** The extension is never empty and holds no dot; it is the text after the last dot when that
      text is non-empty, all of a dot-free name, and "bin" when the name ends with a dot. */
  lemma ExtensionShape(filename: string)
    ensures var e := Extension(filename);
      && e != "" && '.' !in e
      && ('.' !in filename && filename != "" ==> e == filename)
      && (e != "bin" ==> IsSuffix(e, filename) && ('.' in filename ==> IsSuffix("." + e, filename)))
      && (|filename| > 0 && filename[|filename| - 1] == '.' ==> e == "bin")
      && (forall k :: 0 <= k < |filename| && filename[k] == '.' && '.' !in filename[k + 1..] && k + 1 < |filename| ==>
            e == filename[k + 1..])
  {
    var last := Last(Split(filename, '.'));
    LastPiece(filename, '.');
    if last != "" && '.' in filename {
      assert filename[|filename| - |last| - 1..] == "." + last;
    }
    forall k | 0 <= k < |filename| && filename[k] == '.' && '.' !in filename[k + 1..] && k + 1 < |filename|
      ensures last == filename[k + 1..]
    {
      assert filename[k + 1..] == filename[|filename| - |last|..];
    }
  }

  /** The stem is never empty and holds no dot; it is the text before the first dot when that
      text is non-empty, all of a dot-free name, and "unnamed" for a name that starts with a dot
      such as ".csv". */
  lemma StemShape(filename: string)
    ensures var s := Stem(filename);
      && s != "" && '.' !in s
      && ('.' !in filename && filename != "" ==> s == filename)
      && (s != "unnamed" ==> IsPrefix(s, filename) && ('.' in filename ==> IsPrefix(s + ".", filename)))
      && (|filename| > 0 && filename[0] == '.' ==> s == "unnamed")
      && (forall k :: 0 < k < |filename| && filename[k] == '.' && '.' !in filename[..k] ==> s == filename[..k])
  {
    var first := Split(filename, '.')[0];
    FirstPiece(filename, '.');
    if first != "" && '.' in filename {
      assert filename[..|first| + 1] == first + ".";
    }
    forall k | 0 < k < |filename| && filename[k] == '.' && '.' !in filename[..k]
      ensures first == filename[..k]
    {
      assert forall i :: 0 <= i < |first| ==> first[i] == filename[i];
      assert forall i :: 0 <= i < k ==> filename[..k][i] == filename[i];
    }
  }

  predicate IsSuffix(e: string, s: string) {
    |e| <= |s| && s[|s| - |e|..] == e
  }

  /** `\`resources/${resourceId}/${_filename}-${suffix}.${extension}\``. */
  function FullKey(uuid: string, filename: string, suffix: string): string {
    "resources/" + uuid + "/" + Stem(filename) + "-" + suffix + "." + Extension(filename)
  }

  /** A slash-free name has a slash-free stem and extension. */
  lemma PartsSlashFree(filename: string)
    requires '/' !in filename
    ensures '/' !in Stem(filename) && '/' !in Extension(filename)
  {
    FirstPiece(filename, '.');
    LastPiece(filename, '.');
    var first, last := Split(filename, '.')[0], Last(Split(filename, '.'));
    assert forall i :: 0 <= i < |first| ==> first[i] == filename[i];
    assert forall i :: 0 <= i < |last| ==> last[i] == filename[|filename| - |last| + i];
  }

  /** Three separator-free parts joined by the separator split back into those three parts. */
  lemma {:induction false} SplitThree(a: string, b: string, c: string, sep: char)
    requires sep !in a && sep !in b && sep !in c
    ensures Split(a + [sep] + b + [sep] + c, sep) == [a, b, c]
  {
    assert a + [sep] + b + [sep] + c == a + [sep] + (b + [sep] + c);
    SplitAppend(a, b + [sep] + c, sep);
    SplitAppend(b, c, sep);
    SplitSingle(a, sep);
    SplitSingle(b, sep);
    SplitSingle(c, sep);
  }

  /** The key is three path segments, "resources", the uuid and the leaf, when the uuid, the
      file name and the suffix hold no slash; the leaf's last dot-separated part is the file's
      extension. */
  lemma FullKeySegments(uuid: string, filename: string, suffix: string)
    requires '/' !in uuid && '/' !in filename && '/' !in suffix
    ensures var leaf := Stem(filename) + "-" + suffix + "." + Extension(filename);
      && Split(FullKey(uuid, filename, suffix), '/') == ["resources", uuid, leaf]
      && Last(Split(leaf, '.')) == Extension(filename)
  {
    var stem, ext := Stem(filename), Extension(filename);
    PartsSlashFree(filename);
    var leaf := stem + "-" + suffix + "." + ext;
    assert '/' !in leaf by {
      assert leaf == stem + ("-" + suffix + ".") + ext;
    }
    assert FullKey(uuid, filename, suffix) == "resources" + ['/'] + uuid + ['/'] + leaf;
    SplitThree("resources", uuid, leaf, '/');
    ExtensionShape(filename);
    assert leaf == (stem + "-" + suffix) + ['.'] + ext;
    SplitAppend(stem + "-" + suffix, ext, '.');
    SplitSingle(ext, '.');
  }

  /** `\`${env.NEXT_PUBLIC_R2_PUBLIC_URL}/${fullKey}\``. */
  function PublicUrl(publicBase: Option<string>, fullKey: string): (url: string)
    ensures IsPrefix(Show(publicBase) + "/", url)
    ensures IsSuffix("/" + fullKey, url) && |url| == |Show(publicBase)| + 1 + |fullKey|
  {
    Show(publicBase) + "/" + fullKey
  }

  const DefaultContentType: string := "application/octet-stream"

  /** `res.headers["content-type"] || "application/octet-stream"`. */
  function ContentType(header: Option<string>): (t: string)
    ensures Truthy(header) ==> t == header.value
    ensures !Truthy(header) ==> t == DefaultContentType
  {
    OrDefault(header, DefaultContentType)
  }

  // ---------------------------------------------------------------------------
  // uploadFile

  /** What one attempt of the retried body draws and meets: the clock, the fresh uuid, the
      random draws of its `makeid(6)`, the response's content-type header, and the fault of the
      download or the upload, if any. */
  datatype Attempt = Attempt(now: nat, uuid: string, draws: seq<real>, header: Option<string>, transfer: Option<Exception>)

  /** The object stored and the URL handed back. */
  datatype Stored = Stored(key: string, contentType: string, publicUrl: string)

  predicate ValidAttempt(a: Attempt) {
    ValidDraws(a.draws) && |a.draws| >= 6
  }

  /** One run of the retried body. `pathname` is `new URL(fileUrl).pathname`, `None` when the
      URL does not parse. */
  function UploadAttempt(publicBase: Option<string>, pathname: Option<string>, a: Attempt): (r: Result<Stored>)
    requires ValidAttempt(a)
    ensures pathname.None? ==> r.Throw? && r.error == PlainError("Invalid URL")
    ensures pathname.Some? && a.transfer.Some? ==> r == Throw(a.transfer.value)
    // a parseable URL whose transfer meets no fault is stored
    ensures pathname.Some? && a.transfer.None? ==> r.Ok?
    ensures r.Ok? ==> r.value.publicUrl == PublicUrl(publicBase, r.value.key)
                      && r.value.contentType == ContentType(a.header)
    ensures r.Ok? ==> pathname.Some? && r.value.key == FullKey(a.uuid, FileName(pathname.value, a.now), IdFromDraws(a.draws[..6]))
  {
    if pathname.None? then Throw(PlainError("Invalid URL"))
    else
      var filename := FileName(pathname.value, a.now);
      var key := FullKey(a.uuid, filename, IdFromDraws(a.draws[..6]));
      if a.transfer.Some? then Throw(a.transfer.value)
      else Ok(Stored(key, ContentType(a.header), PublicUrl(publicBase, key)))
  }

  /** What each run of the body would return, run by run. */
  function Outcomes(publicBase: Option<string>, pathname: Option<string>, attempts: seq<Attempt>): (rs: seq<Result<Stored>>)
    requires forall k :: 0 <= k < |attempts| ==> ValidAttempt(attempts[k])
    ensures |rs| == |attempts|
    ensures forall k :: 0 <= k < |attempts| ==> rs[k] == UploadAttempt(publicBase, pathname, attempts[k])
  {
    seq(|attempts|, k requires 0 <= k < |attempts| => UploadAttempt(publicBase, pathname, attempts[k]))
  }

  /** `uploadFile(fileUrl)`: the body retried by `withRetry`; `attempts[k]` is what the (k+1)-th
      run meets, so every retry draws its own uuid and suffix. */
  method UploadFile(publicBase: Option<string>, pathname: Option<string>, attempts: seq<Attempt>,
                    max: int, baseMs: int)
    returns (r: Result<Stored>, calls: nat, sleeps: seq<int>)
    requires forall k :: 0 <= k < |attempts| ==> ValidAttempt(attempts[k])
    requires |attempts| >= Utils.AttemptLimit(max)
    ensures 1 <= calls <= Utils.AttemptLimit(max)
    ensures r == UploadAttempt(publicBase, pathname, attempts[calls - 1])
    ensures forall k :: 0 <= k < calls - 1 ==> UploadAttempt(publicBase, pathname, attempts[k]).Throw?
    ensures r.Throw? ==> calls == Utils.AttemptLimit(max)
    ensures sleeps == Utils.Schedule(baseMs, calls - 1)
    ensures r.Ok? ==> (pathname.Some? && r.value.key ==
                       FullKey(attempts[calls - 1].uuid, FileName(pathname.value, attempts[calls - 1].now),
                               IdFromDraws(attempts[calls - 1].draws[..6])))
  {
    var outcomes := Outcomes(publicBase, pathname, attempts);
    r, calls, sleeps := Utils.WithRetry(outcomes, max, baseMs);
  }
}
