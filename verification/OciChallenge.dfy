/** The OCI Bearer challenge: parsing WWW-Authenticate, and what survives the trip. */
module OciChallenge {
  import opened GoText
  import opened Commas

  datatype Challenge = Challenge(realm: string, service: string, scope: string)

  const STATUS_UNAUTHORIZED := 401
  const BEARER := "Bearer"

  // ---------------------------------------------------------------- splitting parameters

  function DropBlankTail(xs: seq<string>): seq<string>
    requires xs != []
  {
    if xs[|xs| - 1] == "" then xs[..|xs| - 1] else xs
  }

  /** The comma-separated parameters; a blank after the last comma is not one. */
  function AuthPieces(params: string): seq<string> {
    DropBlankTail(Pieces(QuotesAndEscapes, OUTSIDE, params))
  }

  method SplitAuthParams(params: string) returns (parts: seq<string>)
    ensures parts == AuthPieces(params)
  {
    parts := [];
    var current, inQuotes, escape := "", false, false;
    for i := 0 to |params|
      invariant Scan(inQuotes, escape) == Scanned(QuotesAndEscapes, OUTSIDE, params[..i])
      invariant parts + [current] == Pieces(QuotesAndEscapes, OUTSIDE, params[..i])
    {
      var ch := params[i];
      PiecesSnoc(QuotesAndEscapes, OUTSIDE, params[..i], ch);
      assert params[..i + 1] == params[..i] + [ch];
      ghost var xs := parts + [current];
      assert xs[..|xs| - 1] == parts && xs[|xs| - 1] == current;
      if escape {
        current := current + [ch];
        escape := false;
        continue;
      }
      if ch == '\\' {
        escape := true;
        current := current + [ch];
      } else if ch == '"' {
        inQuotes := !inQuotes;
        current := current + [ch];
      } else if ch == ',' && !inQuotes {
        parts := parts + [current];
        current := "";
      } else {
        current := current + [ch];
      }
    }
    assert params[..|params|] == params;
    ghost var xs := parts + [current];
    assert xs[..|xs| - 1] == parts && xs[|xs| - 1] == current;
    if |current| > 0 {
      parts := parts + [current];
    }
  }

  /** Without a backslash this is the Cache-Control splitter, but for a blank last piece. */
  lemma SplittersAgree(s: string)
    requires '\\' !in s
    ensures AuthPieces(s) == DropBlankTail(Pieces(Quotes, OUTSIDE, s))
  {
    EscapesIrrelevant(false, s);
  }

  // ---------------------------------------------------------------- one parameter

  /** strings.ReplaceAll of an escaped double quote by a double quote. */
  function UnescapeQuotes(s: string): string {
    if s == "" then ""
    else if "\\\"" <= s then "\"" + UnescapeQuotes(s[2..])
    else [s[0]] + UnescapeQuotes(s[1..])
  }

  function Unquote(value: string): string {
    if |value| >= 2 && value[0] == '"' && value[|value| - 1] == '"'
    then UnescapeQuotes(value[1..|value| - 1]) else value
  }

  /** The lower-cased name and the value of a parameter; a piece without '=' is none. */
  function ParamOf(piece: string): Option<(string, string)> {
    var (before, after, found) := Cut(TrimSpace(piece), '=');
    if !found then None else Some((ToLower(TrimSpace(before)), Unquote(TrimSpace(after))))
  }

  /** The parameters of the pieces; a later one replaces an earlier one of its name. */
  function ParamsOf(pieces: seq<string>): map<string, string> {
    if pieces == [] then map[]
    else
      var earlier, last := ParamsOf(pieces[..|pieces| - 1]), ParamOf(pieces[|pieces| - 1]);
      if last.None? then earlier else earlier[last.value.0 := last.value.1]
  }

  method ParseAuthChallengeParams(params: string) returns (result: map<string, string>)
    ensures result == ParamsOf(AuthPieces(params))
  {
    hide ParamOf, AuthPieces;
    result := map[];
    var parts := SplitAuthParams(params);
    for i := 0 to |parts|
      invariant result == ParamsOf(parts[..i])
    {
      assert parts[..i + 1][..i] == parts[..i];
      var param := ParamOf(parts[i]);
      if param.Some? {
        result := result[param.value.0 := param.value.1];
      }
    }
    assert parts[..|parts|] == parts;
  }

  // ---------------------------------------------------------------- the header lines

  /** What one WWW-Authenticate line says: not Bearer, Bearer without a realm, or a challenge. */
  datatype Line = NotBearer | NoRealm | Says(challenge: Challenge)

  predicate IsBearer(header: string) {
    |header| >= |BEARER| && EqualFold(header[..|BEARER|], BEARER)
    && (|header| > |BEARER| ==> header[|BEARER|] == ' ' || header[|BEARER|] == '\t')
  }

  function FromParams(params: map<string, string>): Line {
    if "realm" !in params then NoRealm
    else Says(Challenge(params["realm"], if "service" in params then params["service"] else "",
                        if "scope" in params then params["scope"] else ""))
  }

  function ReadLine(line: string): Line {
    var header := TrimSpace(line);
    if !IsBearer(header) then NotBearer
    else FromParams(ParamsOf(AuthPieces(TrimSpace(header[|BEARER|..]))))
  }

  /** The first Bearer line decides. */
  function FirstChallenge(lines: seq<string>): Option<Challenge> {
    if lines == [] then None
    else match ReadLine(lines[0])
      case NotBearer => FirstChallenge(lines[1..])
      case NoRealm => None
      case Says(challenge) => Some(challenge)
  }

  function ParseChallenge(status: int, lines: seq<string>): Option<Challenge> {
    if status != STATUS_UNAUTHORIZED then None else FirstChallenge(lines)
  }

  method ParseOCIAuthChallenge(status: int, lines: seq<string>) returns (r: Option<Challenge>)
    ensures r == ParseChallenge(status, lines)
  {
    if status != STATUS_UNAUTHORIZED {
      return None;
    }
    for i := 0 to |lines|
      invariant FirstChallenge(lines) == FirstChallenge(lines[i..])
    {
      assert lines[i..][0] == lines[i] && lines[i..][1..] == lines[i + 1..];
      var header := TrimSpace(lines[i]);
      if !IsBearer(header) {
        assert ReadLine(lines[i]) == NotBearer;
        continue;
      }
      var params := ParseAuthChallengeParams(TrimSpace(header[|BEARER|..]));
      assert ReadLine(lines[i]) == FromParams(params);
      if "realm" !in params {
        return None;
      }
      var service := if "service" in params then params["service"] else "";
      var scope := if "scope" in params then params["scope"] else "";
      return Some(Challenge(params["realm"], service, scope));
    }
    return None;
  }
}
