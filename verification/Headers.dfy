/** HTTP header sets: canonical field names mapped to their lines. */
module Headers {
  import opened GoText

  type Header = map<string, seq<string>>

  /** http.Header.Values for a name written in canonical form. */
  function Values(h: Header, name: string): seq<string> {
    if name in h then h[name] else []
  }

  /** http.Header.Get for a name written in canonical form. */
  function Get(h: Header, name: string): string {
    if Values(h, name) == [] then "" else h[name][0]
  }

  predicate IsTokenChar(c: char) {
    'a' <= c <= 'z' || 'A' <= c <= 'Z' || '0' <= c <= '9' || c in "!#$%&'*+-.^_`|~"
  }

  predicate IsToken(name: string) {
    forall i :: 0 <= i < |name| ==> IsTokenChar(name[i])
  }

  /** Upper case at the start and after a hyphen, lower case elsewhere. */
  function CanonicalFrom(name: string, upper: bool): (r: string)
    ensures |r| == |name|
  {
    if name == "" then ""
    else [if upper then UpperChar(name[0]) else LowerChar(name[0])] + CanonicalFrom(name[1..], name[0] == '-')
  }

  /** http.CanonicalHeaderKey: a name that is not a token is left alone. */
  function CanonicalKey(name: string): string {
    if IsToken(name) then CanonicalFrom(name, true) else name
  }

  /** Every field name is in canonical form, as net/http delivers responses. */
  predicate Canonical(h: Header) {
    forall name :: name in h ==> CanonicalKey(name) == name
  }

  lemma {:induction false} CanonicalOfLower(name: string, upper: bool)
    ensures CanonicalFrom(ToLower(name), upper) == CanonicalFrom(name, upper)
  {
    if name != "" {
      CanonicalOfLower(name[1..], name[0] == '-');
      assert ToLower(name)[1..] == ToLower(name[1..]);
      assert ToLower(name)[0] == LowerChar(name[0]);
    }
  }

  /** Lower-casing a token, as S3 does to metadata keys, is undone by canonicalising. */
  lemma CanonicalUndoesLower(name: string)
    requires IsToken(name)
    ensures CanonicalKey(ToLower(name)) == CanonicalKey(name)
  {
    CanonicalOfLower(name, true);
    assert IsToken(ToLower(name)) by {
      assert forall i :: 0 <= i < |name| ==> IsTokenChar(name[i]) && ToLower(name)[i] == LowerChar(name[i]);
    }
  }

  /** The byte has the case its place asks for. */
  predicate InPlace(name: string, upper: bool, i: nat)
    requires i < |name|
  {
    name[i] == if (if i == 0 then upper else name[i - 1] == '-') then UpperChar(name[i]) else LowerChar(name[i])
  }

  lemma {:induction false} CanonicalKeeps(name: string, upper: bool)
    requires forall i :: 0 <= i < |name| ==> InPlace(name, upper, i)
    ensures CanonicalFrom(name, upper) == name
  {
    if name != "" {
      var rest, hyphen := name[1..], name[0] == '-';
      forall i | 0 <= i < |rest| ensures InPlace(rest, hyphen, i) {
        assert InPlace(name, upper, i + 1);
      }
      CanonicalKeeps(rest, hyphen);
      assert InPlace(name, upper, 0) && name == [name[0]] + rest;
    }
  }
}
