/**
 * `gather_host`: the host identity, with `platform` derived from the OS pretty name
 * by dropping a leading "Windows " matched without regard to case.
 */
module Host {
  import opened Wrappers
  import opened Snapshots

  const UNKNOWN := "unknown"
  const VENDOR_PREFIX := "windows "

  /** Lower-casing one character; only ASCII letters change. */
  function LowerChar(c: char): char {
    if 'A' <= c <= 'Z' then (c as int + 32) as char else c
  }

  /** `str::to_lowercase`, applied character by character. */
  function Lower(s: string): (r: string)
    ensures |r| == |s|
    ensures forall i :: 0 <= i < |s| ==> r[i] == LowerChar(s[i])
  {
    if s == [] then [] else [LowerChar(s[0])] + Lower(s[1..])
  }

  predicate StartsWith(s: string, prefix: string) {
    |prefix| <= |s| && s[..|prefix|] == prefix
  }

  /** `s.chars().skip(n).collect()`: everything after the first `n` characters. */
  function Skip(s: string, n: nat): (r: string)
    ensures |r| == if n <= |s| then |s| - n else 0
    ensures n <= |s| ==> s == s[..n] + r
  {
    if n <= |s| then s[n..] else []
  }

  /** The vendor prefix, compared one character at a time after lower-casing. */
  ghost predicate HasVendorPrefix(prettyName: string) {
    |VENDOR_PREFIX| <= |prettyName| &&
    forall i :: 0 <= i < |VENDOR_PREFIX| ==> LowerChar(prettyName[i]) == VENDOR_PREFIX[i]
  }

  /** The `platform` field: the pretty name without its vendor prefix, if it has one. */
  function Platform(prettyName: string): (platform: string)
    ensures HasVendorPrefix(prettyName) ==> platform == prettyName[|VENDOR_PREFIX|..]
    ensures !HasVendorPrefix(prettyName) ==> platform == prettyName
  {
    var lower := Lower(prettyName);
    if StartsWith(lower, VENDOR_PREFIX) then
      Skip(prettyName, |VENDOR_PREFIX|)
    else
      prettyName
  }

  /** In both cases the platform is a tail of the pretty name, no longer than it. */
  lemma PlatformIsSuffix(prettyName: string)
    ensures |Platform(prettyName)| <= |prettyName|
    ensures Platform(prettyName) == prettyName[|prettyName| - |Platform(prettyName)|..]
  {
  }

  /** Putting the stripped prefix back in front of the platform gives the pretty name. */
  lemma PlatformRestores(prettyName: string)
    requires HasVendorPrefix(prettyName)
    ensures prettyName == prettyName[..|VENDOR_PREFIX|] + Platform(prettyName)
    ensures |Platform(prettyName)| == |prettyName| - |VENDOR_PREFIX|
  {
  }

  /** A vendor prefix in any letter case is stripped. */
  lemma PlatformStripExamples()
    ensures Platform("Windows 11 Pro") == "11 Pro"
    ensures Platform("WINDOWS Server 2022") == "Server 2022"
  {
    assert HasVendorPrefix("Windows 11 Pro");
    assert "Windows 11 Pro"[8..] == "11 Pro";
    assert HasVendorPrefix("WINDOWS Server 2022");
    assert "WINDOWS Server 2022"[8..] == "Server 2022";
  }

  /** Another vendor's name, or "Windows" without the space, is left as it is. */
  lemma PlatformKeepExamples()
    ensures Platform("Ubuntu 22.04") == "Ubuntu 22.04"
    ensures Platform("Windows11") == "Windows11"
  {
    assert !HasVendorPrefix("Ubuntu 22.04") by {
      assert LowerChar("Ubuntu 22.04"[0]) != VENDOR_PREFIX[0];
    }
    assert !HasVendorPrefix("Windows11") by {
      assert LowerChar("Windows11"[7]) != VENDOR_PREFIX[7];
    }
  }

  /**
   * `gather_host`: each reading the platform cannot supply becomes "unknown",
   * and `platform` is derived from the pretty name after that default.
   */
  function GatherHost(name: Option<string>, longOsVersion: Option<string>, kernelVersion: Option<string>)
    : (host: HostData)
    ensures host.prettyName == longOsVersion.GetOr(UNKNOWN)
    ensures host.os == name.GetOr(UNKNOWN) && host.kernelVersion == kernelVersion.GetOr(UNKNOWN)
    ensures HasVendorPrefix(host.prettyName) ==> host.platform == host.prettyName[|VENDOR_PREFIX|..]
    ensures !HasVendorPrefix(host.prettyName) ==> host.platform == host.prettyName
    ensures longOsVersion.None? ==> host.platform == UNKNOWN
  {
    var prettyName := longOsVersion.GetOr(UNKNOWN);
    assert !HasVendorPrefix(UNKNOWN) by {
      assert LowerChar(UNKNOWN[0]) != VENDOR_PREFIX[0];
    }
    HostData(name.GetOr(UNKNOWN), Platform(prettyName), kernelVersion.GetOr(UNKNOWN), prettyName)
  }
}
