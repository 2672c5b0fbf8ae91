/**
 * The build script (build.rs): every line of the `.env` file that holds an
 * `=` is split at its first `=` into a key and a value, and becomes the
 * cargo directive `cargo:rustc-env=key=value`. Reading the file and
 * printing the directives are left to the caller; the model takes the
 * file as its sequence of lines and returns the directives in order.
 */
module BuildScript {
  import opened Wrappers

  const DIRECTIVE_PREFIX: string := "cargo:rustc-env="

  /** The position of the first `c` in `s`, if there is one. */
  function FindFirst(s: string, c: char): (r: Option<nat>)
    ensures r.None? <==> c !in s
    ensures r.Some? ==> r.value < |s| && s[r.value] == c && c !in s[..r.value]
  {
    if s == [] then None
    else if s[0] == c then Some(0)
    else
      match FindFirst(s[1..], c)
      case None => None
      case Some(i) =>
        assert s[..i + 1] == [s[0]] + s[1..][..i];
        Some(i + 1)
  }

  /**
   * str::split_once with a char pattern: the text before the first
   * delimiter and the text after it, or None without a delimiter.
   */
  function SplitOnce(line: string, delimiter: char): (r: Option<(string, string)>)
    ensures r.None? <==> delimiter !in line
    ensures r.Some? ==> r.value.0 + [delimiter] + r.value.1 == line
    ensures r.Some? ==> delimiter !in r.value.0
  {
    match FindFirst(line, delimiter)
    case None => None
    case Some(i) =>
      assert line == line[..i] + [delimiter] + line[i + 1..];
      Some((line[..i], line[i + 1..]))
  }

  /** The directive that sets the compile-time environment variable `key` to `value`. */
  function Directive(key: string, value: string): (d: string)
    ensures |d| == |DIRECTIVE_PREFIX| + |key| + 1 + |value|
    ensures d[..|DIRECTIVE_PREFIX|] == DIRECTIVE_PREFIX
    ensures d[|DIRECTIVE_PREFIX|..] == key + "=" + value
  {
    DIRECTIVE_PREFIX + key + "=" + value
  }

  /** The directive a single line produces, if any. */
  function LineDirective(line: string): (r: Option<string>)
    ensures r.None? <==> '=' !in line
    ensures r.Some? ==> |r.value| > |DIRECTIVE_PREFIX|
  {
    match SplitOnce(line, '=')
    case None => None
    case Some((key, value)) => Some(Directive(key, value))
  }

  /** The directives for `lines`, in line order. */
  function Directives(lines: seq<string>): seq<string>
    decreases |lines|
  {
    if lines == [] then []
    else
      var earlier := Directives(lines[..|lines| - 1]);
      match LineDirective(lines[|lines| - 1])
      case None => earlier
      case Some(directive) => earlier + [directive]
  }

  /** The lines that contain an `=`, in order. */
  function Assignments(lines: seq<string>): (r: seq<string>)
    ensures forall i :: 0 <= i < |r| ==> '=' in r[i]
    decreases |lines|
  {
    if lines == [] then []
    else
      var earlier := Assignments(lines[..|lines| - 1]);
      if '=' in lines[|lines| - 1] then earlier + [lines[|lines| - 1]] else earlier
  }

  /** The loop of the build script's main over the lines of the file. */
  method EmitDirectives(lines: seq<string>) returns (out: seq<string>)
    ensures out == Directives(lines)
  {
    out := [];
    for i := 0 to |lines|
      invariant out == Directives(lines[..i])
    {
      assert lines[..i + 1][..i] == lines[..i];
      var split := SplitOnce(lines[i], '=');
      if split.Some? {
        var (key, value) := split.value;
        out := out + [Directive(key, value)];
      }
    }
    assert lines[..|lines|] == lines;
  }

  /**
   * Splitting a key without `=`, an `=` and any value at the first `=`
   * gives back exactly that key and value.
   */
  lemma SplitOnceJoin(key: string, value: string)
    requires '=' !in key
    ensures SplitOnce(key + "=" + value, '=') == Some((key, value))
  {
    var line := key + "=" + value;
    var i := FindFirst(line, '=').value;
    assert line[|key|] == '=';
    assert line[..|key|] == key;
    assert i == |key|;
    assert line[..i] == key;
    assert line[i + 1..] == value;
  }

  /** A line's directive is the prefix followed by the whole line. */
  lemma LineDirectiveIsPrefixedLine(line: string)
    ensures LineDirective(line).None? <==> '=' !in line
    ensures LineDirective(line).Some? ==> LineDirective(line).value == DIRECTIVE_PREFIX + line
  {
    var r := SplitOnce(line, '=');
    if r.Some? {
      assert r.value.0 + "=" + r.value.1 == line;
    }
  }

  /**
   * Exactly one directive per line that contains `=`, in line order, each
   * the prefix followed by that line.
   */
  lemma {:induction false} DirectivesAreAssignments(lines: seq<string>)
    ensures |Directives(lines)| == |Assignments(lines)|
    ensures forall i :: 0 <= i < |Directives(lines)| ==>
      Directives(lines)[i] == DIRECTIVE_PREFIX + Assignments(lines)[i]
    decreases |lines|
  {
    if lines != [] {
      DirectivesAreAssignments(lines[..|lines| - 1]);
      LineDirectiveIsPrefixedLine(lines[|lines| - 1]);
    }
  }

  /**
   * Cargo reads a directive back by removing the prefix and splitting at
   * the first `=`: for a key without `=` that recovers the key and value.
   */
  lemma DirectiveRoundTrip(key: string, value: string)
    requires '=' !in key
    ensures |Directive(key, value)| >= |DIRECTIVE_PREFIX|
    ensures Directive(key, value)[..|DIRECTIVE_PREFIX|] == DIRECTIVE_PREFIX
    ensures SplitOnce(Directive(key, value)[|DIRECTIVE_PREFIX|..], '=') == Some((key, value))
  {
    var d := Directive(key, value);
    assert d[|DIRECTIVE_PREFIX|..] == key + "=" + value;
    SplitOnceJoin(key, value);
  }
}
