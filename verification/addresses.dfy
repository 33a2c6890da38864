/** cleanAddress: normalising a configured server address before a URL is
    built from it. */
module Addresses {
  import opened Strings

  const SchemeSeparator: string := "://"

  /** Drops everything up to and including the first "://", then at most one
      trailing "/". */
  function CleanAddress(address: string): (r: string)
    ensures |r| <= |address|
    ensures Contains(address, SchemeSeparator) ==>
      var rest := address[IndexOf(address, SchemeSeparator) + |SchemeSeparator|..];
      r == (if EndsWith(rest, "/") then rest[..|rest| - 1] else rest)
    ensures !Contains(address, SchemeSeparator) ==>
      r == (if EndsWith(address, "/") then address[..|address| - 1] else address)
  {
    var i := IndexOf(address, SchemeSeparator);
    var rest := if i != -1 then address[i + |SchemeSeparator|..] else address;
    if EndsWith(rest, "/") then rest[..|rest| - 1] else rest
  }

  /** A bare host name is kept as it is. */
  lemma BareHostUnchanged(host: string)
    requires !Contains(host, SchemeSeparator) && !EndsWith(host, "/")
    ensures CleanAddress(host) == host
  {
  }

  /** The scheme and one trailing slash are removed from a URL whose scheme
      has no colon, leaving the host (and port, if any). */
  lemma {:induction false} SchemeAndSlashRemoved(scheme: string, host: string)
    requires forall k | 0 <= k < |scheme| :: scheme[k] != ':'
    ensures CleanAddress(scheme + SchemeSeparator + host + "/") == host
  {
    var a := scheme + SchemeSeparator + host + "/";
    assert OccursAt(a, SchemeSeparator, |scheme|) by {
      assert a[|scheme|..|scheme| + 3] == SchemeSeparator;
    }
    forall j | 0 <= j < |scheme|
      ensures !OccursAt(a, SchemeSeparator, j)
    {
      assert a[j] == scheme[j];
    }
    assert IndexOf(a, SchemeSeparator) == |scheme|;
    var rest := a[|scheme| + 3..];
    assert rest == host + "/";
    assert EndsWith(rest, "/");
    assert rest[..|rest| - 1] == host;
  }

  /** Only one trailing slash is dropped (as long as the slashes do not
      complete a "://"). */
  lemma OneSlashOnly(host: string)
    requires !Contains(host, SchemeSeparator)
    requires !EndsWith(host, ":") && !EndsWith(host, ":/")
    ensures CleanAddress(host + "//") == host + "/"
  {
    var a := host + "//";
    forall i | 0 <= i <= |a|
      ensures !OccursAt(a, SchemeSeparator, i)
    {
      if i + 3 <= |host| {
        assert a[i..i + 3] == host[i..i + 3];
        assert !OccursAt(host, SchemeSeparator, i);
      } else if i + 3 <= |a| {
        if i == |host| - 1 {
          assert host[|host| - 1..] == [a[i]];
        } else {
          assert host[|host| - 2..] == [a[i], a[i + 1]];
        }
      }
    }
    assert a[..|a| - 1] == host + "/";
  }
}
