/**
 * src/shacnify/core/config_manager.py: the per-user settings file.  The file
 * is a value of type ConfigFile that each operation takes and gives back;
 * `get_config` can change it too, because it first creates a missing file.
 */
module ConfigManager {
  import opened Json
  import opened Host

  const EmptyConfig: Body := Doc(JObj(map[]))

  /** `ensure_config_exists`: write "{}" when the file is absent, never touch an existing one. */
  function EnsureConfigExists(f: ConfigFile): (r: ConfigFile)
    ensures r.Present?
    ensures f.Present? ==> r == f
    ensures f.Absent? ==> r.body == EmptyConfig
  {
    if f.Absent? then Present(EmptyConfig) else f
  }

  /** `get_config`: the decoded file, or `{}` when it does not parse; also the file as left behind. */
  function GetConfig(f: ConfigFile): (r: (ConfigFile, Json))
    ensures r.0 == EnsureConfigExists(f)
    ensures f.Absent? ==> r.1 == JObj(map[])
    ensures f.Present? && f.body.Doc? ==> r.1 == f.body.value
    ensures f.Present? && !f.body.Doc? ==> r.1 == JObj(map[])
  {
    var file := EnsureConfigExists(f);
    match Decoded(file.body)
    case Some(v) => (file, v)
    case None => (file, JObj(map[]))
  }

  // ---------------------------------------------------------------------------
  // str.split(',') and str.strip()

  /** Number of occurrences of `c` in `s`. */
  function Count(s: string, c: char): (n: nat)
    ensures n > 0 <==> c in s
    ensures n <= |s|
    decreases |s|
  {
    if s == [] then 0 else (if s[0] == c then 1 else 0) + Count(s[1..], c)
  }

  /** Python's `s.split(sep)` for a one-character separator: empty pieces are kept. */
  function Split(s: string, sep: char): (r: seq<string>)
    ensures |r| == Count(s, sep) + 1
    ensures forall i :: 0 <= i < |r| ==> sep !in r[i]
    decreases |s|
  {
    if s == [] then [""]
    else
      var rest := Split(s[1..], sep);
      if s[0] == sep then [""] + rest
      else [[s[0]] + rest[0]] + rest[1..]
  }

  /** Python's `sep.join(pieces)`. */
  function Join(pieces: seq<string>, sep: char): string
    decreases |pieces|
  {
    if pieces == [] then ""
    else if |pieces| == 1 then pieces[0]
    else pieces[0] + [sep] + Join(pieces[1..], sep)
  }

  /** Prepending a character to the first piece prepends it to the joined string. */
  lemma {:induction false} JoinExtendsFirst(c: char, pieces: seq<string>, sep: char)
    requires pieces != []
    ensures Join([[c] + pieces[0]] + pieces[1..], sep) == [c] + Join(pieces, sep)
  {
    var r := [[c] + pieces[0]] + pieces[1..];
    if |pieces| > 1 {
      assert r[1..] == pieces[1..];
      assert Join(r, sep) == ([c] + pieces[0]) + [sep] + Join(pieces[1..], sep);
    }
  }

  /** Splitting loses nothing: joining the pieces with the separator gives the string back. */
  lemma {:induction false} JoinSplit(s: string, sep: char)
    ensures Join(Split(s, sep), sep) == s
    decreases |s|
  {
    if s != [] {
      var rest := Split(s[1..], sep);
      JoinSplit(s[1..], sep);
      assert s == [s[0]] + s[1..];
      if s[0] == sep {
        assert Split(s, sep) == [""] + rest;
        assert ([""] + rest)[1..] == rest;
      } else {
        assert Split(s, sep) == [[s[0]] + rest[0]] + rest[1..];
        JoinExtendsFirst(s[0], rest, sep);
      }
    }
  }

  /** The characters Python's `str.isspace` accepts, which `str.strip()` removes. */
  predicate IsSpace(c: char) {
    c == ' ' || ('\t' <= c <= '\r') || ('\U{1C}' <= c <= '\U{1F}') || c == '\U{85}' || c == '\U{A0}'
    || c == '\U{1680}' || ('\U{2000}' <= c <= '\U{200A}') || c == '\U{2028}' || c == '\U{2029}'
    || c == '\U{202F}' || c == '\U{205F}' || c == '\U{3000}'
  }

  /** Length of the leading whitespace run of `s`. */
  function LeadingSpace(s: string): (n: nat)
    ensures n <= |s|
    ensures forall k :: 0 <= k < n ==> IsSpace(s[k])
    ensures n < |s| ==> !IsSpace(s[n])
    decreases |s|
  {
    if s != [] && IsSpace(s[0]) then 1 + LeadingSpace(s[1..]) else 0
  }

  /** Length of the trailing whitespace run of `s`. */
  function TrailingSpace(s: string): (n: nat)
    ensures n <= |s|
    ensures forall k :: |s| - n <= k < |s| ==> IsSpace(s[k])
    ensures n < |s| ==> !IsSpace(s[|s| - n - 1])
    decreases |s|
  {
    if s != [] && IsSpace(s[|s| - 1]) then 1 + TrailingSpace(s[..|s| - 1]) else 0
  }

  /** Python's `s.strip()`: `s` without its leading and trailing whitespace. */
  function Strip(s: string): (r: string)
    ensures |r| <= |s|
    ensures r != [] ==> !IsSpace(r[0]) && !IsSpace(r[|r| - 1])
    ensures exists i, j :: 0 <= i <= j <= |s| && r == s[i..j]
                           && (forall k :: 0 <= k < i ==> IsSpace(s[k]))
                           && (forall k :: j <= k < |s| ==> IsSpace(s[k]))
  {
    var i := LeadingSpace(s);
    var t := s[i..];
    var j := i + |t| - TrailingSpace(t);
    assert forall k :: j <= k < |s| ==> s[k] == t[k - i];
    s[i..j]
  }

  function StripAll(pieces: seq<string>): (r: seq<Json>)
    ensures |r| == |pieces|
    ensures forall i :: 0 <= i < |r| ==> r[i] == JStr(Strip(pieces[i]))
    decreases |pieces|
  {
    if pieces == [] then [] else [JStr(Strip(pieces[0]))] + StripAll(pieces[1..])
  }

  /** The comma heuristic of `set_config_value`: a string with a comma becomes the list of its stripped pieces. */
  function SplitValue(v: Json): (r: Json)
    ensures v.JStr? && ',' in v.s ==>
              r.JArr? && |r.items| == Count(v.s, ',') + 1 && |r.items| >= 2
              && forall i :: 0 <= i < |r.items| ==> r.items[i] == JStr(Strip(Split(v.s, ',')[i]))
    ensures !(v.JStr? && ',' in v.s) ==> r == v
  {
    if v.JStr? && ',' in v.s then JArr(StripAll(Split(v.s, ','))) else v
  }

  /**
   * `set_config_value`: load, assign one key, write back.  Assigning a key
   * fails with TypeError when the file holds JSON that is not an object;
   * the model then reports `ok == false` and leaves the file as loading left it.
   */
  method SetConfigValue(f: ConfigFile, key: string, value: Json) returns (f': ConfigFile, ok: bool)
    ensures ok <==> GetConfig(f).1.JObj?
    ensures !ok ==> f' == EnsureConfigExists(f)
    ensures ok ==> f'.Present? && f'.body.Doc? && f'.body.value.JObj?
    ensures ok ==> var m := f'.body.value.fields;
                   key in m && m[key] == SplitValue(value)
                   && m.Keys == GetConfig(f).1.fields.Keys + {key}
                   && forall k :: k in m && k != key ==> m[k] == GetConfig(f).1.fields[k]
  {
    var loaded := GetConfig(f);
    f' := loaded.0;
    if !loaded.1.JObj? {
      ok := false;
      return;
    }
    var config := loaded.1.fields;
    if value.JStr? && ',' in value.s {
      config := config[key := JArr(StripAll(Split(value.s, ',')))];
    } else {
      config := config[key := value];
    }
    f' := Present(Doc(JObj(config)));
    ok := true;
  }
}
