/**
 * The plugin's update check: version strings read as tuples of integers,
 * compared in tuple order, and the message (or silence) that follows from
 * the local plugin file and the published one. Reading the local file and
 * fetching the published one are inputs here.
 */
module CheckVersion {
  import opened Wrappers
  import opened Json
  import opened Strings
  import opened Seqs

  // ---------------------------------------------------------------------
  // Version strings
  // ---------------------------------------------------------------------

  /** Python `int(x)` on a string: surrounding whitespace, an optional sign, then decimal digits. */
  function PyInt(x: string): Option<int> {
    var t := PyStrip(x);
    if t != [] && t[0] == '+' then
      match ParseNat(t[1..])
      case Some(n) => Some(n)
      case None => None
    else ParseInt(t)
  }

  /** `int()` accepts only text that, stripped, is not empty and ends in a digit. */
  lemma PyIntNeedsDigits(x: string)
    ensures PyInt(x).Some? ==> PyStrip(x) != "" && IsDigit(PyStrip(x)[|PyStrip(x)| - 1])
  {
    var t := PyStrip(x);
    if PyInt(x).Some? {
      if t != [] && t[0] == '+' {
        assert AllDigits(t[1..]) && t[1..] != [];
        assert t[|t| - 1] == t[1..][|t[1..]| - 1];
      } else if t != [] && t[0] == '-' {
        assert AllDigits(t[1..]) && t[1..] != [];
        assert t[|t| - 1] == t[1..][|t[1..]| - 1];
      } else {
        assert AllDigits(t) && t != [];
      }
    }
  }

  /** Every part read by `f`, or nothing as soon as `f` rejects one part. */
  function ReadEach(f: string -> Option<int>, parts: seq<string>): (r: Option<seq<int>>)
    ensures r.Some? <==> forall i :: 0 <= i < |parts| ==> f(parts[i]).Some?
    ensures r.Some? ==> |r.value| == |parts| && forall i :: 0 <= i < |parts| ==> r.value[i] == f(parts[i]).value
    decreases |parts|
  {
    if parts == [] then Some([])
    else
      var head, tail := f(parts[0]), ReadEach(f, parts[1..]);
      if head.Some? && tail.Some? then Some([head.value] + tail.value)
      else
        assert !(forall i :: 0 <= i < |parts| ==> f(parts[i]).Some?) by {
          if head.Some? {
            var j :| 0 <= j < |parts[1..]| && f(parts[1..][j]).None?;
            assert f(parts[1 + j]).None?;
          }
        }
        None
  }

  /** Every part read as an integer, or nothing as soon as one part is not one. */
  function ParseParts(parts: seq<string>): (r: Option<seq<int>>)
    ensures r.Some? <==> forall i :: 0 <= i < |parts| ==> PyInt(parts[i]).Some?
    ensures r.Some? ==> |r.value| == |parts| && forall i :: 0 <= i < |parts| ==> r.value[i] == PyInt(parts[i]).value
  {
    ReadEach(PyInt, parts)
  }

  /** `parse_version`: one integer per `.`-separated part, or `VersionParseError`. */
  function ParseVersion(versionStr: string): (r: Result<seq<int>, string>)
    ensures r.Failure? ==> r.error == "Invalid version format: " + versionStr
    ensures r.Success? ==> |r.value| == |Split(versionStr, '.')|
  {
    match ParseParts(Split(versionStr, '.'))
    case Some(v) => Success(v)
    case None => Failure("Invalid version format: " + versionStr)
  }

  /** The empty string is not a version. */
  lemma EmptyVersionRejected()
    ensures ParseVersion("").Failure?
  {
    assert Split("", '.') == [""];
    assert PyStrip("") == "";
  }

  /** A version with an empty part, as between two adjacent dots, is rejected. */
  lemma EmptyPartRejected(a: string, b: string)
    ensures ParseVersion(a + ".." + b).Failure?
  {
    var s := a + ".." + b;
    assert s == a + ['.'] + ([] + ['.'] + b);
    SplitConcat(a, [] + ['.'] + b, '.');
    SplitConcat([], b, '.');
    var parts := Split(s, '.');
    var k := |Split(a, '.')|;
    assert parts == Split(a, '.') + ([""] + Split(b, '.'));
    assert parts[k] == "";
    assert PyStrip("") == "";
    assert PyInt(parts[k]).None?;
  }

  /** The decimal rendering of a version: its integers joined by dots. */
  function VersionString(v: seq<int>): string {
    Join(RenderParts(v), ".")
  }

  function RenderParts(v: seq<int>): (r: seq<string>)
    ensures |r| == |v| && forall i :: 0 <= i < |v| ==> r[i] == IntToString(v[i])
    decreases |v|
  {
    if v == [] then [] else [IntToString(v[0])] + RenderParts(v[1..])
  }

  /** A rendered integer reads back through `int()`. */
  lemma PyIntOfIntToString(n: int)
    ensures PyInt(IntToString(n)) == Some(n)
    ensures '.' !in IntToString(n)
  {
    var s := IntToString(n);
    assert !IsPyWhitespace(s[0]) && !IsPyWhitespace(s[|s| - 1]);
    assert TrimStart(s, IsPyWhitespace) == s;
    assert PyStrip(s) == s;
    ParseIntToString(n);
  }

  /** Every non-empty version survives rendering and parsing again. */
  lemma VersionRoundTrip(v: seq<int>)
    requires v != []
    ensures ParseVersion(VersionString(v)) == Success(v)
  {
    var parts := RenderParts(v);
    forall i | 0 <= i < |parts| ensures '.' !in parts[i] && PyInt(parts[i]) == Some(v[i]) {
      PyIntOfIntToString(v[i]);
    }
    SplitJoin(parts, '.');
    assert Split(VersionString(v), '.') == parts;
    var r := ParseParts(parts);
    assert r.Some?;
    assert r.value == v;
  }

  // ---------------------------------------------------------------------
  // The update check
  // ---------------------------------------------------------------------

  /** What `check_for_update` gives: a message, `None`, or an exception it does not catch. */
  datatype UpdateResult = Message(text: string) | NoMessage | Raises

  /** What reading `plugin.json` gives: the version value, a `LocalVersionError`, or an uncaught exception. */
  datatype LocalOutcome = LocalFound(version: Json) | LocalError(reason: string) | LocalRaises

  /** Python `d.get("version", None)` on a decoded document; `.get` on a non-object raises. */
  function VersionField(doc: Json): (r: Option<Option<Json>>)
    ensures r.None? <==> !doc.JObj?
    ensures r.Some? && r.value.Some? ==> "version" in doc.fields && r.value.value == doc.fields["version"] != JNull
    ensures r == Some(None) ==> "version" !in doc.fields || doc.fields["version"] == JNull
  {
    if !doc.JObj? then None
    else if "version" in doc.fields && doc.fields["version"] != JNull then Some(Some(doc.fields["version"]))
    else Some(None)
  }

  /**
   * `get_local_version`, given the file's location, what reading it gave
   * (its text, or the `OSError`'s message) and the JSON decoder (the value,
   * or the `JSONDecodeError`'s message).
   */
  function GetLocalVersion(path: string, contents: Result<string, string>, decode: string -> Result<Json, string>): (r: LocalOutcome)
    ensures contents.Failure? ==> r == LocalError("Could not read " + path + ": " + contents.error)
    ensures r.LocalFound? ==> r.version != JNull
  {
    match contents
    case Failure(e) => LocalError("Could not read " + path + ": " + e)
    case Success(text) =>
      match decode(text)
      case Failure(e) => LocalError("Invalid JSON in " + path + ": " + e)
      case Success(doc) =>
        match VersionField(doc)
        case None => LocalRaises
        case Some(None) => LocalError("No 'version' field in " + path)
        case Some(Some(version)) => LocalFound(version)
  }

  /** The start every warning shares. */
  const Warning := "Warning: Could not "

  const UpdateLead := "Plugin update available! You're using v"

  function UpdateMessage(localVersion: string, remoteVersion: string): string {
    UpdateLead + localVersion + ", the latest is v" + remoteVersion + "."
  }

  /**
   * `check_for_update` as a function of the local file (its path and what
   * reading it gave) and of the published file (its body, or the network
   * or timeout error's message), with the JSON decoder as a parameter.
   */
  function CheckForUpdate(path: string, localContents: Result<string, string>, remoteBody: Result<string, string>,
                          decode: string -> Result<Json, string>): UpdateResult
  {
    match GetLocalVersion(path, localContents, decode)
    case LocalRaises => Raises
    case LocalError(e) => Message(Warning + "read local plugin version: " + e)
    case LocalFound(lv) =>
      if !lv.JStr? then Raises
      else
        match ParseVersion(lv.s)
        case Failure(_) => Message(Warning + "parse local plugin version (got: " + lv.s + ")")
        case Success(localParsed) =>
          match remoteBody
          case Failure(_) => NoMessage
          case Success(body) =>
            match decode(body)
            case Failure(_) => NoMessage
            case Success(doc) =>
              match VersionField(doc)
              case None => Raises
              case Some(None) => Message(Warning + "determine remote plugin version")
              case Some(Some(rv)) =>
                if !rv.JStr? then Raises
                else
                  match ParseVersion(rv.s)
                  case Failure(_) => Message(Warning + "determine remote plugin version (got: " + rv.s + ")")
                  case Success(remoteParsed) =>
                    if LexGreater(remoteParsed, localParsed) then Message(UpdateMessage(lv.s, rv.s)) else NoMessage
  }

  /** Both version strings as read, when both are strings that parse. */
  predicate BothParsed(path: string, localContents: Result<string, string>, remoteBody: Result<string, string>,
                       decode: string -> Result<Json, string>, localVersion: string, remoteVersion: string)
  {
    && GetLocalVersion(path, localContents, decode) == LocalFound(JStr(localVersion))
    && ParseVersion(localVersion).Success?
    && remoteBody.Success? && decode(remoteBody.value).Success?
    && VersionField(decode(remoteBody.value).value) == Some(Some(JStr(remoteVersion)))
    && ParseVersion(remoteVersion).Success?
  }

  /**
   * An update is announced exactly when the published version is greater
   * in tuple order; an equal or older one gives no message.
   */
  lemma UpdateIffNewer(path: string, localContents: Result<string, string>, remoteBody: Result<string, string>,
                       decode: string -> Result<Json, string>, localVersion: string, remoteVersion: string)
    requires BothParsed(path, localContents, remoteBody, decode, localVersion, remoteVersion)
    ensures var result := CheckForUpdate(path, localContents, remoteBody, decode);
            (result == Message(UpdateMessage(localVersion, remoteVersion)) <==>
               LexGreater(ParseVersion(remoteVersion).value, ParseVersion(localVersion).value))
            && (result == NoMessage <==> !LexGreater(ParseVersion(remoteVersion).value, ParseVersion(localVersion).value))
  {
  }

  /** The update message holds both version strings verbatim: the local one after its lead, the published one at its end. */
  lemma UpdateMessageEmbedsVersions(localVersion: string, remoteVersion: string)
    ensures OccursAt(UpdateMessage(localVersion, remoteVersion), localVersion, |UpdateLead|)
    ensures EndsWith(UpdateMessage(localVersion, remoteVersion), remoteVersion + ".")
  {
    var m := UpdateMessage(localVersion, remoteVersion);
    assert m == UpdateLead + localVersion + (", the latest is v" + remoteVersion + ".");
    assert m[|UpdateLead|..|UpdateLead| + |localVersion|] == localVersion;
    assert m == (UpdateLead + localVersion + ", the latest is v") + (remoteVersion + ".");
  }

  /** The local version could not be read, was not a string, or did not parse. */
  predicate LocalUnusable(path: string, localContents: Result<string, string>, decode: string -> Result<Json, string>) {
    var lo := GetLocalVersion(path, localContents, decode);
    !lo.LocalFound? || !lo.version.JStr? || ParseVersion(lo.version.s).Failure?
  }

  /**
   * A local version that cannot be read or parsed decides the result
   * before the published file is looked at: the result is the same for
   * every published body.
   */
  lemma LocalFailureDecidesFirst(path: string, localContents: Result<string, string>,
                                 remote1: Result<string, string>, remote2: Result<string, string>,
                                 decode: string -> Result<Json, string>)
    requires LocalUnusable(path, localContents, decode)
    ensures CheckForUpdate(path, localContents, remote1, decode) == CheckForUpdate(path, localContents, remote2, decode)
  {
  }

  /** That result is a warning, or the exception `.get` or `.split` raises on a value of the wrong kind. */
  lemma LocalFailureWarns(path: string, localContents: Result<string, string>, remoteBody: Result<string, string>,
                          decode: string -> Result<Json, string>)
    requires LocalUnusable(path, localContents, decode)
    ensures var result := CheckForUpdate(path, localContents, remoteBody, decode);
            result.Raises? || (result.Message? && StartsWith(result.text, Warning))
  {
    match GetLocalVersion(path, localContents, decode)
    case LocalRaises =>
    case LocalError(e) =>
      StartsWithConcat(Warning, "read local plugin version: ");
      StartsWithExtend(Warning + "read local plugin version: ", e, Warning);
    case LocalFound(lv) =>
      if lv.JStr? {
        StartsWithConcat(Warning, "parse local plugin version (got: ");
        StartsWithExtend(Warning + "parse local plugin version (got: ", lv.s, Warning);
        StartsWithExtend(Warning + "parse local plugin version (got: " + lv.s, ")", Warning);
      }
  }

  lemma StartsWithConcat(x: string, y: string)
    ensures StartsWith(x + y, x)
  {
    assert (x + y)[..|x|] == x;
  }

  lemma StartsWithExtend(x: string, y: string, p: string)
    requires StartsWith(x, p)
    ensures StartsWith(x + y, p)
  {
    assert (x + y)[..|p|] == x[..|p|];
  }

  /** Once the local version parses, a network failure or an undecodable body gives no message. */
  lemma RemoteFailureSilent(path: string, localContents: Result<string, string>, remoteBody: Result<string, string>,
                            decode: string -> Result<Json, string>)
    requires var lo := GetLocalVersion(path, localContents, decode);
             lo.LocalFound? && lo.version.JStr? && ParseVersion(lo.version.s).Success?
    requires remoteBody.Failure? || decode(remoteBody.value).Failure?
    ensures CheckForUpdate(path, localContents, remoteBody, decode) == NoMessage
  {
  }

  /**
   * A published file without a version and one whose version does not
   * parse give two different warnings, the second naming what it got.
   */
  lemma RemoteVersionWarnings(path: string, localContents: Result<string, string>, remoteBody: Result<string, string>,
                              decode: string -> Result<Json, string>)
    requires var lo := GetLocalVersion(path, localContents, decode);
             lo.LocalFound? && lo.version.JStr? && ParseVersion(lo.version.s).Success?
    requires remoteBody.Success? && decode(remoteBody.value).Success?
    ensures var doc := decode(remoteBody.value).value;
            VersionField(doc) == Some(None) ==>
              CheckForUpdate(path, localContents, remoteBody, decode) == Message(Warning + "determine remote plugin version")
    ensures var doc := decode(remoteBody.value).value;
            forall rv :: VersionField(doc) == Some(Some(JStr(rv))) && ParseVersion(rv).Failure? ==>
              CheckForUpdate(path, localContents, remoteBody, decode) ==
                Message(Warning + "determine remote plugin version (got: " + rv + ")")
  {
  }

  /** Every message the check gives is a warning or the update notice. */
  lemma MessagesAreWarningsOrUpdate(path: string, localContents: Result<string, string>, remoteBody: Result<string, string>,
                                    decode: string -> Result<Json, string>)
    ensures var result := CheckForUpdate(path, localContents, remoteBody, decode);
            result.Message? ==> StartsWith(result.text, Warning) || StartsWith(result.text, UpdateLead)
  {
    if LocalUnusable(path, localContents, decode) {
      LocalFailureWarns(path, localContents, remoteBody, decode);
    } else if remoteBody.Success? && decode(remoteBody.value).Success? {
      var doc := decode(remoteBody.value).value;
      var lv := GetLocalVersion(path, localContents, decode).version.s;
      match VersionField(doc)
      case None =>
      case Some(None) =>
        StartsWithConcat(Warning, "determine remote plugin version");
      case Some(Some(rv)) =>
        if rv.JStr? {
          if ParseVersion(rv.s).Failure? {
            StartsWithConcat(Warning, "determine remote plugin version (got: ");
            StartsWithExtend(Warning + "determine remote plugin version (got: ", rv.s, Warning);
            StartsWithExtend(Warning + "determine remote plugin version (got: " + rv.s, ")", Warning);
          } else {
            StartsWithConcat(UpdateLead, lv);
            StartsWithExtend(UpdateLead + lv, ", the latest is v", UpdateLead);
            StartsWithExtend(UpdateLead + lv + ", the latest is v", rv.s, UpdateLead);
            StartsWithExtend(UpdateLead + lv + ", the latest is v" + rv.s, ".", UpdateLead);
          }
        }
    }
  }
}
