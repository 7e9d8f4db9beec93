/**
 * The list of signature-database files handed to the engine's load, check,
 * compile and list primitives: the paths joined into one string with the
 * platform's path-list separator, or "absent" for the engine's default
 * database.
 */
module DatabasePaths {
  import opened Wrappers
  import opened CTypes

  /** The two separator conventions the crate is built for. */
  datatype Platform = Unix | Windows

  /** `DATABASE_FILENAME_SEPARATOR`: `;` on Windows, `:` everywhere else. */
  function Separator(platform: Platform): (c: char)
    ensures c != '\0'
    ensures c == ':' <==> platform == Unix
    ensures c == ';' <==> platform == Windows
  {
    match platform
    case Windows => ';'
    case Unix => ':'
  }

  /** The combined length of the parts. */
  function TotalLength(parts: seq<string>): nat
  {
    if |parts| == 0 then 0 else |parts[0]| + TotalLength(parts[1..])
  }

  /** `[String]::join`: the parts in order with one separator between neighbours. */
  function Join(parts: seq<string>, sep: char): (s: string)
    ensures |parts| > 0 ==> |parts[0]| <= |s| && s[..|parts[0]|] == parts[0]
    ensures |parts| > 0 ==> |s| == TotalLength(parts) + |parts| - 1
  {
    if |parts| == 0 then ""
    else if |parts| == 1 then parts[0]
    else parts[0] + [sep] + Join(parts[1..], sep)
  }

  /** `filenames: None` asks the engine for its compiled-in default database. */
  datatype DatabasePaths = DatabasePaths(filenames: Option<CString>)

  datatype InvalidDatabasePathError = InvalidDatabasePathError

  /**
   * `DatabasePaths::new`: join the paths; an empty joined string means the
   * default database, and a joined string with an interior NUL cannot become
   * a `CString`, which is an error.
   */
  function New(paths: seq<string>, platform: Platform): (r: Result<DatabasePaths, InvalidDatabasePathError>)
    ensures r.Err? <==> '\0' in Join(paths, Separator(platform))
    ensures r.Ok? ==> (r.value.filenames.None? <==> Join(paths, Separator(platform)) == "")
    ensures r.Ok? && r.value.filenames.Some? ==> r.value.filenames.value == Join(paths, Separator(platform))
  {
    var filename := Join(paths, Separator(platform));
    if filename == "" then Ok(DatabasePaths(None))
    else if '\0' in filename then Err(InvalidDatabasePathError)
    else Ok(DatabasePaths(Some(filename)))
  }

  /** `DatabasePaths::default()`. */
  function Default(): (d: DatabasePaths)
    ensures d.filenames.None?
    ensures forall platform :: New([], platform) == Ok(d)
  {
    DatabasePaths(None)
  }

  /**
   * `TryFrom<[P; N]>`, `TryFrom<Vec<P>>` and `TryFrom<&[P]>`: every collection
   * of paths goes through `new` unchanged.
   */
  function TryFromPaths(paths: seq<string>, platform: Platform): (r: Result<DatabasePaths, InvalidDatabasePathError>)
    ensures r == New(paths, platform)
    ensures r.Err? <==> exists i :: 0 <= i < |paths| && '\0' in paths[i]
    ensures r.Ok? && r.value.filenames.None? <==> |paths| == 0 || (|paths| == 1 && paths[0] == "")
  {
    NewRejectsIff(paths, platform);
    NewDefaultIff(paths, platform);
    New(paths, platform)
  }

  /**
   * `TryFrom` for a single `&str`, `String`, `&OsStr`, `OsString`, `&Path` or
   * `PathBuf`: `new` of the one-element iterator `once(value)`.
   */
  function TryFromPath(path: string, platform: Platform): (r: Result<DatabasePaths, InvalidDatabasePathError>)
    ensures r == New([path], platform)
    ensures path == "" ==> r == Ok(DatabasePaths(None))
    ensures '\0' in path ==> r == Err(InvalidDatabasePathError)
    ensures path != "" && '\0' !in path ==> r == Ok(DatabasePaths(Some(path)))
  {
    New([path], platform)
  }

  // ---------------------------------------------------------------------------
  // Properties of Join and New
  // ---------------------------------------------------------------------------

  /** The joined string is empty exactly for no paths or one empty path. */
  lemma {:induction false} JoinEmptyIff(parts: seq<string>, sep: char)
    ensures Join(parts, sep) == "" <==> |parts| == 0 || (|parts| == 1 && parts[0] == "")
  {
    if |parts| >= 2 {
      assert |parts[0] + [sep] + Join(parts[1..], sep)| >= 1;
    }
  }

  /** A character other than the separator is in the joined string exactly when it is in one of the parts. */
  lemma {:induction false} InJoinIff(parts: seq<string>, sep: char, c: char)
    requires c != sep
    ensures c in Join(parts, sep) <==> exists i :: 0 <= i < |parts| && c in parts[i]
  {
    if |parts| >= 2 {
      InJoinIff(parts[1..], sep, c);
      var tail := parts[1..];
      assert Join(parts, sep) == parts[0] + [sep] + Join(tail, sep);
      if c in Join(parts, sep) {
        if c !in parts[0] {
          assert c in Join(tail, sep);
          var j :| 0 <= j < |tail| && c in tail[j];
          assert c in parts[j + 1];
        }
      } else {
        forall i | 0 <= i < |parts| ensures c !in parts[i] {
          if i > 0 { assert parts[i] == tail[i - 1]; }
        }
      }
    }
  }

  /** `new` yields "use the default database" exactly for no paths or a single empty path; `["", ""]` does not. */
  lemma NewDefaultIff(paths: seq<string>, platform: Platform)
    ensures New(paths, platform).Ok? && New(paths, platform).value.filenames.None?
            <==> |paths| == 0 || (|paths| == 1 && paths[0] == "")
  {
    JoinEmptyIff(paths, Separator(platform));
  }

  /** `new` fails exactly when some path holds a NUL; the separator never does. */
  lemma NewRejectsIff(paths: seq<string>, platform: Platform)
    ensures New(paths, platform).Err? <==> exists i :: 0 <= i < |paths| && '\0' in paths[i]
  {
    InJoinIff(paths, Separator(platform), '\0');
    JoinEmptyIff(paths, Separator(platform));
  }

  /** Two empty paths are not "no paths": they join to a lone separator. */
  lemma TwoEmptyPathsAreNotDefault(platform: Platform)
    ensures New(["", ""], platform) == Ok(DatabasePaths(Some([Separator(platform)])))
  {
    var parts: seq<string> := ["", ""];
    assert parts[1..] == [""];
    assert Join(parts, Separator(platform)) == [Separator(platform)];
  }

  // ---------------------------------------------------------------------------
  // Reading the list back
  // ---------------------------------------------------------------------------

  /** The index of the first `c` in `s`. */
  function FirstIndex(s: string, c: char): (i: nat)
    requires c in s
    ensures i < |s| && s[i] == c && c !in s[..i]
  {
    if s[0] == c then 0 else 1 + FirstIndex(s[1..], c)
  }

  /** Cut a path-list string at every separator, the way a reader of the list recovers its entries. */
  function Split(s: string, sep: char): (parts: seq<string>)
    ensures |parts| >= 1
    decreases |s|
  {
    if sep !in s then [s]
    else
      var i := FirstIndex(s, sep);
      [s[..i]] + Split(s[i + 1..], sep)
  }

  /**
   * Joining is undone by splitting when there is at least one path and no
   * path contains the separator: the list the engine reads is the list given.
   */
  lemma {:induction false} SplitJoin(parts: seq<string>, sep: char)
    requires |parts| >= 1
    requires forall i :: 0 <= i < |parts| ==> sep !in parts[i]
    ensures Split(Join(parts, sep), sep) == parts
  {
    if |parts| == 1 {
      assert Join(parts, sep) == parts[0];
    } else {
      var s := Join(parts, sep);
      var tail := parts[1..];
      assert s == parts[0] + [sep] + Join(tail, sep);
      assert s[|parts[0]|] == sep;
      assert s[..|parts[0]|] == parts[0];
      assert sep in s;
      var i := FirstIndex(s, sep);
      assert i == |parts[0]|;
      assert s[i + 1..] == Join(tail, sep);
      SplitJoin(tail, sep);
    }
  }

  /** A path holding the separator is not rejected; it reads back as two paths. */
  lemma SeparatorInsidePathIsAmbiguous(a: string, b: string, platform: Platform)
    ensures New([a + [Separator(platform)] + b], platform) == New([a, b], platform)
  {
    var parts: seq<string> := [a, b];
    assert parts[1..] == [b];
    assert Join(parts, Separator(platform)) == a + [Separator(platform)] + b;
  }
}
