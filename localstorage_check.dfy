/** The pre-commit hook that refuses direct `localStorage` calls: each listed
    file is skipped (empty name, the hook script itself), looked up, and
    flagged when its text contains `localStorage.getItem`, `.setItem` or
    `.removeItem`; the hook fails when any file was flagged. The file system
    is a map from path to what reading that path gives. */
module LocalStorageCheck {

  const ScriptName := "check-localstorage-usage.js"

  const GetItem := "localStorage.getItem"
  const SetItem := "localStorage.setItem"
  const RemoveItem := "localStorage.removeItem"

  /** What the file system says about a path: no such file, a file that
      cannot be read, or a file with this text. */
  datatype FileState = Missing | Unreadable | Readable(content: string)

  function Status(fs: map<string, FileState>, file: string): FileState {
    if file in fs then fs[file] else Missing
  }

  /** `text.includes(pattern)`. */
  predicate Contains(text: string, pattern: string) {
    pattern <= text || (|text| > 0 && Contains(text[1..], pattern))
  }

  predicate OccursAt(text: string, pattern: string, i: int) {
    0 <= i && i + |pattern| <= |text| && text[i..i + |pattern|] == pattern
  }

  /** `Contains` agrees with the definition of a substring occurrence. */
  lemma {:induction false} ContainsIffOccurs(text: string, pattern: string)
    ensures Contains(text, pattern) <==> exists i :: OccursAt(text, pattern, i)
  {
    if pattern <= text {
      assert OccursAt(text, pattern, 0);
    } else if |text| > 0 {
      ContainsIffOccurs(text[1..], pattern);
      if exists i :: OccursAt(text[1..], pattern, i) {
        var i :| OccursAt(text[1..], pattern, i);
        assert text[1..][i..i + |pattern|] == text[i + 1..i + 1 + |pattern|];
        assert OccursAt(text, pattern, i + 1);
      }
      if exists i :: OccursAt(text, pattern, i) {
        var i :| OccursAt(text, pattern, i);
        if i == 0 {
          assert false;
        }
        assert text[1..][i - 1..i - 1 + |pattern|] == text[i..i + |pattern|];
        assert OccursAt(text[1..], pattern, i - 1);
      }
    }
  }

  predicate UsesLocalStorage(content: string) {
    Contains(content, GetItem) || Contains(content, SetItem) || Contains(content, RemoveItem)
  }

  /** A pattern whose first character does not occur in the text is not
      included in it. */
  lemma {:induction false} FirstCharAbsent(text: string, pattern: string)
    requires |pattern| > 0 && pattern[0] !in text
    ensures !Contains(text, pattern)
    decreases |text|
  {
    if |text| > 0 {
      assert text[0] in text;
      assert text[1..] <= text[1..];
      assert forall c :: c in text[1..] ==> c in text;
      FirstCharAbsent(text[1..], pattern);
    }
  }

  /** Text without a single "l" (an empty file in particular) has no call
      to flag. */
  lemma {:induction false} NoLetterNoFlag(content: string)
    requires 'l' !in content
    ensures !UsesLocalStorage(content)
  {
    FirstCharAbsent(content, GetItem);
    FirstCharAbsent(content, SetItem);
    FirstCharAbsent(content, RemoveItem);
  }

  /** `path.basename` on POSIX paths: trailing slashes are ignored and the
      part after the last remaining slash is kept. */
  function StripTrailingSlashes(p: string): (r: string)
    ensures r <= p
    ensures |r| == 0 || r[|r| - 1] != '/'
  {
    if |p| > 0 && p[|p| - 1] == '/' then StripTrailingSlashes(p[..|p| - 1]) else p
  }

  function AfterLastSlash(p: string): (r: string)
    ensures '/' !in r
    ensures |r| <= |p| && r == p[|p| - |r|..]
  {
    if |p| == 0 || p[|p| - 1] == '/' then "" else AfterLastSlash(p[..|p| - 1]) + [p[|p| - 1]]
  }

  function Basename(p: string): (r: string)
    ensures '/' !in r
  {
    AfterLastSlash(StripTrailingSlashes(p))
  }

  /** A name without slashes after any directory prefix is its own
      basename. */
  lemma {:induction false} BasenameOfJoin(dir: string, name: string)
    requires name != "" && '/' !in name
    ensures Basename(dir + "/" + name) == name
  {
    var p := dir + "/" + name;
    assert p[|p| - 1] == name[|name| - 1];
    AfterLastSlashOfJoin(dir, name);
  }

  lemma {:induction false} AfterLastSlashOfJoin(dir: string, name: string)
    requires '/' !in name
    ensures AfterLastSlash(dir + "/" + name) == name
    decreases |name|
  {
    var p := dir + "/" + name;
    if |name| == 0 {
      assert p[|p| - 1] == '/';
    } else {
      assert p[|p| - 1] == name[|name| - 1];
      assert p[..|p| - 1] == dir + "/" + name[..|name| - 1];
      AfterLastSlashOfJoin(dir, name[..|name| - 1]);
    }
  }

  /** The skip rules: an empty name, the script's own path, or any file named
      like the script. */
  predicate Skipped(file: string, scriptPath: string) {
    file == "" || file == scriptPath || Basename(file) == ScriptName
  }

  /** `checkLocalStorageUsage`'s verdict for one file: not skipped, it
      exists, it can be read, and its text calls localStorage. */
  predicate Flags(file: string, scriptPath: string, fs: map<string, FileState>) {
    !Skipped(file, scriptPath)
    && Status(fs, file).Readable?
    && UsesLocalStorage(Status(fs, file).content)
  }

  /** A non-empty name without slashes is its own basename. */
  lemma {:induction false} BasenameOfName(name: string)
    requires name != "" && '/' !in name
    ensures Basename(name) == name
  {
    assert name[|name| - 1] in name;
    AfterLastSlashOfName(name);
  }

  lemma {:induction false} AfterLastSlashOfName(name: string)
    requires '/' !in name
    ensures AfterLastSlash(name) == name
    decreases |name|
  {
    if |name| > 0 {
      assert name[|name| - 1] in name;
      assert forall c :: c in name[..|name| - 1] ==> c in name;
      AfterLastSlashOfName(name[..|name| - 1]);
    }
  }

  /** An empty name, a missing file and an unreadable file are never
      flagged. */
  lemma NeverFlaggedWithoutText(file: string, scriptPath: string, fs: map<string, FileState>)
    ensures !Flags("", scriptPath, fs)
    ensures Status(fs, file) == Missing || Status(fs, file) == Unreadable ==> !Flags(file, scriptPath, fs)
  {
  }

  /** A readable file that is not skipped is flagged exactly when one of the
      three calls occurs somewhere in its text. */
  lemma {:induction false} FlaggedIffCallOccurs(file: string, scriptPath: string, fs: map<string, FileState>)
    requires !Skipped(file, scriptPath) && Status(fs, file).Readable?
    ensures var content := Status(fs, file).content;
            Flags(file, scriptPath, fs)
            <==> (exists i :: OccursAt(content, GetItem, i))
                 || (exists i :: OccursAt(content, SetItem, i))
                 || (exists i :: OccursAt(content, RemoveItem, i))
  {
    var content := Status(fs, file).content;
    ContainsIffOccurs(content, GetItem);
    ContainsIffOccurs(content, SetItem);
    ContainsIffOccurs(content, RemoveItem);
  }

  /** The hook never flags a copy of itself, wherever it lies. */
  lemma {:induction false} ScriptNeverFlagged(dir: string, scriptPath: string, fs: map<string, FileState>)
    ensures !Flags(dir + "/" + ScriptName, scriptPath, fs)
    ensures !Flags(ScriptName, scriptPath, fs)
  {
    var name := ScriptName;
    assert name != "" && '/' !in name;
    BasenameOfJoin(dir, name);
    BasenameOfName(name);
  }

  /** The files flagged from a list, in list order. */
  function FlaggedFiles(files: seq<string>, scriptPath: string, fs: map<string, FileState>): seq<string> {
    if |files| == 0 then []
    else
      var last := files[|files| - 1];
      FlaggedFiles(files[..|files| - 1], scriptPath, fs) + (if Flags(last, scriptPath, fs) then [last] else [])
  }

  /** `a` is `b` with some elements left out, order kept. */
  predicate IsSubsequence<T(==)>(a: seq<T>, b: seq<T>) {
    |a| == 0
    || (|b| > 0
        && (IsSubsequence(a, b[..|b| - 1])
            || (a[|a| - 1] == b[|b| - 1] && IsSubsequence(a[..|a| - 1], b[..|b| - 1]))))
  }

  lemma {:induction false} FlaggedIsSubsequence(files: seq<string>, scriptPath: string, fs: map<string, FileState>)
    ensures IsSubsequence(FlaggedFiles(files, scriptPath, fs), files)
  {
    if |files| > 0 {
      var init := files[..|files| - 1];
      FlaggedIsSubsequence(init, scriptPath, fs);
      var last := files[|files| - 1];
      var r := FlaggedFiles(files, scriptPath, fs);
      if Flags(last, scriptPath, fs) {
        assert r[..|r| - 1] == FlaggedFiles(init, scriptPath, fs);
      } else {
        assert r == FlaggedFiles(init, scriptPath, fs);
      }
    }
  }

  /** A file is in the flagged list exactly when it is in the input and is
      flagged. */
  lemma {:induction false} FlaggedMembership(files: seq<string>, scriptPath: string, fs: map<string, FileState>, f: string)
    ensures f in FlaggedFiles(files, scriptPath, fs) <==> f in files && Flags(f, scriptPath, fs)
  {
    if |files| > 0 {
      var init := files[..|files| - 1];
      FlaggedMembership(init, scriptPath, fs, f);
      assert files == init + [files[|files| - 1]];
    }
  }

  /** The `forEach` over the listed files, pushing each flagged one. */
  method CheckFiles(files: seq<string>, scriptPath: string, fs: map<string, FileState>)
    returns (filesWithLocalStorage: seq<string>)
    ensures filesWithLocalStorage == FlaggedFiles(files, scriptPath, fs)
  {
    filesWithLocalStorage := [];
    var i := 0;
    while i < |files|
      invariant 0 <= i <= |files|
      invariant filesWithLocalStorage == FlaggedFiles(files[..i], scriptPath, fs)
    {
      assert files[..i + 1][..i] == files[..i];
      var file := files[i];
      if file != "" && file != scriptPath && Basename(file) != ScriptName {
        var status := Status(fs, file);
        if status.Readable? {
          if UsesLocalStorage(status.content) {
            filesWithLocalStorage := filesWithLocalStorage + [file];
          }
        }
      }
      i := i + 1;
    }
    assert files[..i] == files;
  }

  /** The process exit code: 1 when some file was flagged, otherwise the
      script ends normally with 0. */
  function ExitCode(filesWithLocalStorage: seq<string>): (code: int)
    ensures code == 1 <==> |filesWithLocalStorage| > 0
    ensures code == 0 <==> |filesWithLocalStorage| == 0
  {
    if |filesWithLocalStorage| > 0 then 1 else 0
  }

  /** The hook fails exactly when some listed file is flagged. */
  lemma {:induction false} FailsIffSomeFileFlagged(files: seq<string>, scriptPath: string, fs: map<string, FileState>)
    ensures ExitCode(FlaggedFiles(files, scriptPath, fs)) == 1
            <==> exists f :: f in files && Flags(f, scriptPath, fs)
  {
    var r := FlaggedFiles(files, scriptPath, fs);
    if |r| > 0 {
      FlaggedMembership(files, scriptPath, fs, r[0]);
    }
    if exists f :: f in files && Flags(f, scriptPath, fs) {
      var f :| f in files && Flags(f, scriptPath, fs);
      FlaggedMembership(files, scriptPath, fs, f);
    }
  }
}
