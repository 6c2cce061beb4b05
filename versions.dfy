/**
 * `Jenkins.get_version`: the `X-Jenkins` header split on '.', padded with
 * "0" to four fields and converted to integers.
 */
module Versions {
  import opened Wrappers
  import opened Text
  import opened Exceptions

  datatype JenkinsVersion = JenkinsVersion(major: int, minor: int, patch: int, build: int)

  const MissingHeaderMessage := "Header `X-Jenkins` isn`t found in response"

  function Zeros(n: nat): (z: seq<string>)
    ensures |z| == n && forall i :: 0 <= i < n ==> z[i] == "0"
  {
    if n == 0 then [] else Zeros(n - 1) + ["0"]
  }

  /** The fields after padding: fewer than four are filled up with "0", longer lists are left as they are. */
  function Padded(parts: seq<string>): (p: seq<string>)
    ensures |parts| <= 4 ==> |p| == 4
    ensures |parts| > 4 ==> p == parts
    ensures p[..|parts|] == parts
  {
    if |parts| < 4 then parts + Zeros(4 - |parts|) else parts
  }

  /**
   * The padding loop, written as `while len(versions) < 4`; the source's
   * `!= 4` never stops on more than four fields (see PaddingAsWrittenDiverges).
   */
  method PadFields(parts: seq<string>) returns (versions: seq<string>)
    ensures versions == Padded(parts)
  {
    versions := parts;
    while |versions| < 4
      invariant versions == parts + Zeros(|versions| - |parts|)
      invariant |parts| <= 4 ==> |versions| <= 4
      invariant |parts| > 4 ==> versions == parts
      decreases 4 - |versions|
    {
      versions := versions + ["0"];
      assert Zeros(|versions| - |parts|) == Zeros(|versions| - 1 - |parts|) + ["0"];
    }
  }

  /**
   * The loop as written, run for at most `fuel` rounds: Some(fields) once
   * `len(versions) == 4`, None while it is still looping.
   */
  function PadAsWritten(versions: seq<string>, fuel: nat): Option<seq<string>>
    decreases fuel
  {
    if |versions| == 4 then Some(versions)
    else if fuel == 0 then None
    else PadAsWritten(versions + ["0"], fuel - 1)
  }

  /** With more than four fields the loop as written never reaches length four, however long it runs. */
  lemma {:induction false} PaddingAsWrittenDiverges(versions: seq<string>, fuel: nat)
    requires |versions| > 4
    ensures PadAsWritten(versions, fuel) == None
    decreases fuel
  {
    if fuel > 0 {
      PaddingAsWrittenDiverges(versions + ["0"], fuel - 1);
    }
  }

  /** A five-part header such as "2.1.2.3.4" makes `get_version` loop forever as written. */
  lemma FiveFieldHeaderHangs(fuel: nat)
    ensures PadAsWritten(Split("2.1.2.3.4", '.'), fuel) == None
  {
    assert "2.1.2.3.4" == Join(["2", "1", "2", "3", "4"], '.');
    SplitJoin(["2", "1", "2", "3", "4"], '.');
    PaddingAsWrittenDiverges(Split("2.1.2.3.4", '.'), fuel);
  }

  /** For four fields or fewer the corrected loop agrees with the one as written. */
  lemma {:induction false} PaddingAgrees(versions: seq<string>)
    requires |versions| <= 4
    ensures PadAsWritten(versions, 4 - |versions|) == Some(Padded(versions))
    decreases 4 - |versions|
  {
    if |versions| < 4 {
      var longer := versions + ["0"];
      PaddingAgrees(longer);
      ZerosCons(4 - |versions|);
      assert Padded(longer) == longer + Zeros(4 - |longer|);
      assert Padded(versions) == versions + (["0"] + Zeros(4 - |longer|));
      assert Padded(longer) == Padded(versions);
    }
  }

  lemma {:induction false} ZerosCons(n: nat)
    requires n > 0
    ensures Zeros(n) == ["0"] + Zeros(n - 1)
  {
    if n > 1 {
      ZerosCons(n - 1);
    }
  }

  /** `JenkinsVersion(*map(int, versions))`: exactly four decimal fields, else the constructor or `int` raises. */
  function ToVersion(fields: seq<string>): (r: Result<JenkinsVersion, Exception>)
    ensures r.Ok? <==> |fields| == 4 && forall i :: 0 <= i < 4 ==> ParseNat(fields[i]).Some?
    ensures r.Err? ==> r.error == Malformed
  {
    if |fields| == 4 && ParseNat(fields[0]).Some? && ParseNat(fields[1]).Some?
       && ParseNat(fields[2]).Some? && ParseNat(fields[3]).Some?
    then Ok(JenkinsVersion(ParseNat(fields[0]).value, ParseNat(fields[1]).value,
                           ParseNat(fields[2]).value, ParseNat(fields[3]).value))
    else Err(Malformed)
  }

  /** What `get_version` makes of the header value, if the response has one. */
  function ParseVersion(header: Option<string>): (r: Result<JenkinsVersion, Exception>)
    ensures header.None? || header.value == "" ==>
              r == Err(Jenkins(NewJenkinsError(Some(MissingHeaderMessage))))
  {
    if header.None? || header.value == "" then Err(Jenkins(NewJenkinsError(Some(MissingHeaderMessage))))
    else ToVersion(Padded(Split(header.value, '.')))
  }

  /** A header with one to four numeric fields gives those numbers, the missing ones being 0. */
  lemma ParseNumericFields(fields: seq<nat>)
    requires 1 <= |fields| <= 4
    ensures var header := Join(seq(|fields|, i requires 0 <= i < |fields| => NatToString(fields[i])), '.');
      ParseVersion(Some(header)) == Ok(JenkinsVersion(
        fields[0],
        if |fields| > 1 then fields[1] else 0,
        if |fields| > 2 then fields[2] else 0,
        if |fields| > 3 then fields[3] else 0))
  {
    var texts := seq(|fields|, i requires 0 <= i < |fields| => NatToString(fields[i]));
    var header := Join(texts, '.');
    SplitJoin(texts, '.');
    assert header != "";
    forall i | 0 <= i < |fields| ensures ParseNat(texts[i]) == Some(fields[i]) {
      ParseNatToString(fields[i]);
    }
    assert ParseNat("0") == Some(0) by { ParseNatToString(0); }
  }

  /** The two header values the version parser is documented with. */
  lemma ShortHeaderExample()
    ensures ParseVersion(Some("2.358")) == Ok(JenkinsVersion(2, 358, 0, 0))
  {
    var fields: seq<nat> := [2, 358];
    assert NatToString(358) == "358" by {
      assert NatToString(3) == "3";
      assert NatToString(35) == "35";
    }
    assert seq(2, i requires 0 <= i < 2 => NatToString(fields[i])) == ["2", "358"];
    assert Join(["2", "358"], '.') == "2.358";
    ParseNumericFields(fields);
  }

  lemma FullHeaderExample()
    ensures ParseVersion(Some("2.346.1.4")) == Ok(JenkinsVersion(2, 346, 1, 4))
  {
    var fields: seq<nat> := [2, 346, 1, 4];
    assert NatToString(346) == "346" by {
      assert NatToString(3) == "3";
      assert NatToString(34) == "34";
    }
    assert seq(4, i requires 0 <= i < 4 => NatToString(fields[i])) == ["2", "346", "1", "4"];
    assert Join(["2", "346", "1", "4"], '.') == "2.346.1.4";
    ParseNumericFields(fields);
  }
}
