/**
 * The path helpers of src/path.rs: `~/` expansion for a path given on the
 * command line, the existence checks on a supplied file path, and the choice
 * of the file to read. Paths are Unix paths held as strings; the file system
 * (`exists`, `is_file`) and the home directory are passed in.
 */
module FilePath {
  import opened Wrappers
  import opened Text

  /** The message of `construct_file_path` when there is no home directory. */
  const HOME_DIR_ERROR: string := "Error constructing home directory"
  /** The message of `validate_file_path` for a path that does not exist. */
  const FILE_NOT_FOUND: string := "File not found!"
  /** The message of `validate_file_path` for a path that exists but is not a file. */
  const NOT_A_FILE: string := "Not a file"

  /** Why a path operation gives no path. */
  datatype PathError =
    | Message(text: string)          // an `Err` the function returns
    | SliceOutOfRange(path: string)  // panic: `&path[2..]` on a path shorter than two bytes
    | UnwrapNone                     // panic: `unwrap()` on an absent project directory

  /** `Path::is_absolute` on Unix: the path starts at the root. */
  predicate IsAbsolute(p: string)
  {
    |p| > 0 && p[0] == '/'
  }

  /**
   * `Path::starts_with("~/")`: the comparison is by components, and `~/` has
   * the one component `~`. The first component of a relative path is the text
   * before its first `/` (an empty path has none, and a leading `.` is the
   * current-directory component, which is not `~`).
   */
  predicate StartsWithHomeComponent(p: string)
  {
    Split(p, '/')[0] == "~"
  }

  /** The path is spelled with the two characters `~/` in front. */
  predicate HasTildeSlash(p: string)
  {
    |p| >= 2 && p[..2] == "~/"
  }

  /** The first piece of a split is empty exactly when the string is empty or starts with the delimiter. */
  lemma {:induction false} FirstPieceEmpty(s: string, d: char)
    ensures Split(s, d)[0] == "" <==> |s| == 0 || s[0] == d
  {
    if |s| > 0 && s[0] != d {
      assert |Split(s, d)[0]| > 0;
    }
  }

  /**
   * Component and character views agree except on the bare `~`: a path starts
   * with the component `~` exactly when it is `~` or starts with `~/`.
   */
  lemma {:induction false} HomeComponentIff(p: string)
    ensures StartsWithHomeComponent(p) <==> p == "~" || HasTildeSlash(p)
  {
    if |p| > 0 && p[0] != '/' {
      var rest := Split(p[1..], '/');
      assert Split(p, '/')[0] == [p[0]] + rest[0];
      FirstPieceEmpty(p[1..], '/');
      if p == "~" || HasTildeSlash(p) {
        assert p[0] == '~';
        assert |p[1..]| == 0 || p[1..][0] == '/';
      }
      if StartsWithHomeComponent(p) {
        assert ([p[0]] + rest[0])[0] == '~';
        assert rest[0] == "";
        if |p| >= 2 {
          assert p[1..][0] == '/';
          assert p[..2] == [p[0], p[1]];
        } else {
          assert p == [p[0]];
        }
      }
    } else if |p| > 0 {
      assert Split(p, '/')[0] == "";
    }
  }

  /**
   * `PathBuf::push`: an absolute `p` replaces the path; otherwise `p` is added
   * under it, with a `/` in between unless the path is empty or already ends
   * with one.
   */
  function Push(base: string, p: string): (r: string)
    ensures |p| <= |r| && r[|r| - |p|..] == p
    ensures IsAbsolute(p) ==> r == p
    ensures !IsAbsolute(p) ==> |base| <= |r| && r[..|base|] == base
    ensures !IsAbsolute(p) ==> |base| + |p| <= |r| <= |base| + 1 + |p|
    ensures !IsAbsolute(p) ==> (|r| == |base| + 1 + |p| <==> |base| > 0 && base[|base| - 1] != '/')
    ensures !IsAbsolute(p) && |r| == |base| + 1 + |p| ==> r[|base|] == '/'
  {
    if IsAbsolute(p) then p
    else if |base| > 0 && base[|base| - 1] != '/' then base + "/" + p
    else base + p
  }

  /**
   * `construct_file_path`, with the home directory (`home_dir()`) passed in.
   * The `to_str()` failure cannot happen for a path that came in as a string
   * and is not modelled.
   */
  function ConstructFilePath(path: string, home: Option<string>): (r: Result<string, PathError>)
    ensures path == "~" ==> r == Err(SliceOutOfRange(path))
    ensures HasTildeSlash(path) && home.Some? ==> r == Ok(Push(home.value, path[2..]))
    ensures HasTildeSlash(path) && home.None? ==> r == Err(Message(HOME_DIR_ERROR))
    ensures path != "~" && !HasTildeSlash(path) ==> r == Ok(path)
  {
    HomeComponentIff(path);
    if !IsAbsolute(path) then
      if StartsWithHomeComponent(path) then
        if |path| < 2 then Err(SliceOutOfRange(path))
        else if home.Some? then Ok(Push(home.value, path[2..]))
        else Err(Message(HOME_DIR_ERROR))
      else Ok(path)
    else Ok(path)
  }

  /** With a home directory that does not end in `/`, `~/rest` becomes the home directory, `/` and `rest`. */
  lemma {:induction false} TildeExpansion(path: string, home: string)
    requires HasTildeSlash(path) && !IsAbsolute(path[2..])
    requires |home| > 0 && home[|home| - 1] != '/'
    ensures ConstructFilePath(path, Some(home)) == Ok(home + "/" + path[2..])
  {
  }

  /** `~/` followed by an absolute path expands to that absolute path: `~//x` becomes `/x`. */
  lemma {:induction false} TildeAbsoluteRest(path: string, home: string)
    requires HasTildeSlash(path) && IsAbsolute(path[2..])
    ensures ConstructFilePath(path, Some(home)) == Ok(path[2..])
  {
  }

  /** `~/` alone expands to the home directory with a `/` added when it has none at its end. */
  lemma {:induction false} TildeAloneIsHome(home: string)
    requires |home| > 0 && home[|home| - 1] != '/'
    ensures ConstructFilePath("~/", Some(home)) == Ok(home + "/")
  {
    assert HasTildeSlash("~/");
    assert "~/"[2..] == "";
    assert home + "/" + "" == home + "/";
  }

  /** A path whose first character is not `~` is kept as it is, whatever the home directory. */
  lemma {:induction false} PlainPathKept(p: string, home: Option<string>)
    requires |p| > 0 && p[0] != '~'
    ensures ConstructFilePath(p, home) == Ok(p)
  {
  }

  /**
   * `validate_file_path`, with the file system's `exists` and `is_file`
   * passed in. Existence is checked first.
   */
  function ValidateFilePath(argPath: Option<string>, pathExists: string -> bool, isFile: string -> bool)
    : (r: Result<(), string>)
    ensures r.Ok? <==> argPath.None? || (pathExists(argPath.value) && isFile(argPath.value))
    ensures argPath.Some? && !pathExists(argPath.value) ==> r == Err(FILE_NOT_FOUND)
    ensures argPath.Some? && pathExists(argPath.value) && !isFile(argPath.value) ==> r == Err(NOT_A_FILE)
  {
    if argPath.Some? then
      if !pathExists(argPath.value) then Err(FILE_NOT_FOUND)
      else if !isFile(argPath.value) then Err(NOT_A_FILE)
      else Ok(())
    else Ok(())
  }

  /**
   * `generate_read_path`: the supplied path, else the default file in the
   * project directory. `validate_project_dir` unwraps the project directory
   * (creating it when missing, which is left out).
   */
  function GenerateReadPath(filePath: Option<string>, projectDir: Option<string>, fileName: string)
    : (r: Result<string, PathError>)
    ensures projectDir.None? ==> r == Err(UnwrapNone)
    ensures projectDir.Some? && filePath.Some? ==> r == Ok(filePath.value)
    ensures projectDir.Some? && filePath.None? ==> r == Ok(Push(projectDir.value, fileName))
  {
    if projectDir.None? then Err(UnwrapNone)
    else Ok(if filePath.Some? then filePath.value else Push(projectDir.value, fileName))
  }
}
