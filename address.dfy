/**
 * Server-address normalisation and request-URL building, as done on every Connect and every
 * sync: trim, drop one trailing '/', add "http://" unless the text already starts with "http",
 * and add the default port ":7347" when the part after the first "://" has no ':'.
 */
module Address {
  import opened Wrappers
  import opened Text

  const Scheme := "http://"
  const SchemeSeparator := "://"
  const DefaultPort := ":7347"
  const ServerListPath := "/fetch/server-list"
  const DataPath := "/fetch/data"
  const UpdatePath := "/update"

  /** The typed address, trimmed and with one trailing '/' removed. */
  function Clean(address: string): (r: string)
    ensures EndsWith(Trim(address), "/") ==> r + "/" == Trim(address)
    ensures !EndsWith(Trim(address), "/") ==> r == Trim(address)
  {
    RemoveSuffix(Trim(address), "/")
  }

  /** The cleaned address with "http://" in front, unless it already starts with "http". */
  function WithScheme(clean: string): (r: string)
    ensures StartsWith(r, "http")
    ensures StartsWith(clean, "http") ==> r == clean
    ensures !StartsWith(clean, "http") ==> r == Scheme + clean
  {
    if StartsWith(clean, "http") then clean else Scheme + clean
  }

  /** The check the client makes before adding the default port. */
  predicate HasPort(full: string) {
    ':' in SubstringAfter(full, SchemeSeparator)
  }

  /** The base URL the client talks to. */
  function Normalize(address: string): (r: string)
    ensures StartsWith(r, "http")
  {
    var full := WithScheme(Clean(address));
    if !HasPort(full) then full + DefaultPort else full
  }

  /** Where Connect fetches the server list. */
  function ServerListUrl(address: string): string {
    Normalize(address) + ServerListPath
  }

  /** Where Connect fetches the encrypted vault. */
  function DataUrl(address: string): string {
    Normalize(address) + DataPath
  }

  /** Where sync posts the encrypted vault. */
  function UpdateUrl(address: string): string {
    Normalize(address) + UpdatePath
  }

  /** Appending ":7347" never creates a "://" and never moves the first one. */
  lemma {:induction false} AppendPortKeepsSeparator(full: string)
    ensures IndexOf(full + DefaultPort, SchemeSeparator) == IndexOf(full, SchemeSeparator)
  {
    var s := full + DefaultPort;
    forall j | 0 <= j && j + 3 <= |full|
      ensures OccursAt(s, SchemeSeparator, j) == OccursAt(full, SchemeSeparator, j)
    {
      assert s[j..j + 3] == full[j..j + 3];
    }
    forall j | 0 <= j && |full| < j + 3 <= |s|
      ensures !OccursAt(s, SchemeSeparator, j)
    {
      if j + 1 >= |full| {
        assert s[j..j + 3][1] == DefaultPort[j + 1 - |full|];
      } else {
        assert s[j..j + 3][2] == DefaultPort[0];
      }
    }
    match IndexOf(full, SchemeSeparator)
    case None =>
      assert forall j :: !OccursAt(s, SchemeSeparator, j);
    case Some(i) =>
      assert OccursAt(s, SchemeSeparator, i);
  }

  /** After appending the default port, the part after the first "://" contains ':'. */
  lemma AppendPortGivesPort(full: string)
    ensures HasPort(full + DefaultPort)
  {
    var s := full + DefaultPort;
    AppendPortKeepsSeparator(full);
    var after := SubstringAfter(s, SchemeSeparator);
    if IndexOf(full, SchemeSeparator).Some? {
      assert |after| >= |DefaultPort|;
    }
    assert after[|after| - 5] == ':';
  }

  /**
   * The default port is appended exactly when the part after the first "://" (the whole text
   * when there is none) has no ':'; otherwise the schemed address is used as it is.
   */
  lemma NormalizePortRule(address: string)
    ensures var full := WithScheme(Clean(address));
      (Normalize(address) == full + DefaultPort <==> !HasPort(full))
      && (HasPort(full) <==> Normalize(address) == full)
  {
    var full := WithScheme(Clean(address));
    if HasPort(full) {
      assert |Normalize(address)| != |full + DefaultPort|;
    } else {
      assert |Normalize(address)| != |full|;
    }
  }

  /** The normalised address always carries an explicit port after its first "://". */
  lemma NormalizeHasPort(address: string)
    ensures HasPort(Normalize(address))
  {
    var full := WithScheme(Clean(address));
    if !HasPort(full) {
      AppendPortGivesPort(full);
    }
  }

  /**
   * The scheme quirk: a cleaned address that starts with "http" but has no "://" (such as
   * "httpbin.org") gets no scheme at all, and the result still has no "://".
   */
  lemma SchemelessHttpPrefix(address: string)
    requires StartsWith(Clean(address), "http") && IndexOf(Clean(address), SchemeSeparator).None?
    ensures IndexOf(Normalize(address), SchemeSeparator).None?
    ensures Normalize(address) == Clean(address) + (if ':' in Clean(address) then "" else DefaultPort)
  {
    var full := Clean(address);
    if !HasPort(full) {
      AppendPortKeepsSeparator(full);
    }
  }

  /** Without a ':' there is no "://" either. */
  lemma NoColonNoSeparator(s: string)
    requires ':' !in s
    ensures IndexOf(s, SchemeSeparator).None?
  {
    forall j | 0 <= j && j + 3 <= |s| ensures !OccursAt(s, SchemeSeparator, j) {
      assert s[j..j + 3][0] == s[j];
    }
  }

  /** The quirk on a concrete input: "httpbin.org" becomes "httpbin.org:7347", with no scheme. */
  lemma HttpbinExample(a: string)
    requires a == "httpbin.org"
    ensures Normalize(a) == "httpbin.org:7347"
  {
    assert a[0] == 'h' && a[|a| - 1] == 'g';
    TrimKeepsTrimmed(a);
    assert !EndsWith(a, "/") by { assert a[|a| - 1..] == ['g']; }
    assert Clean(a) == a;
    assert StartsWith(a, "http");
    assert ':' !in a;
    NoColonNoSeparator(a);
    SchemelessHttpPrefix(a);
  }

  /** The address field's initial text, "localhost:7347", gets the scheme and keeps its port. */
  lemma DefaultAddressExample(a: string)
    requires a == "localhost:7347"
    ensures Normalize(a) == "http://localhost:7347"
  {
    assert a[0] == 'l' && a[|a| - 1] == '7';
    TrimKeepsTrimmed(a);
    assert !EndsWith(a, "/") by { assert a[|a| - 1..] == ['7']; }
    assert Clean(a) == a;
    assert !StartsWith(a, "http") by { assert a[..4][0] == 'l'; }
    var full := Scheme + a;
    assert full == "http://localhost:7347";
    assert OccursAt(full, SchemeSeparator, 4) by { assert full[4..7] == "://"; }
    forall j | 0 <= j < 4 ensures !OccursAt(full, SchemeSeparator, j) {
      assert full[j..j + 3][0] == full[j];
    }
    assert IndexOf(full, SchemeSeparator) == Some(4);
    assert SubstringAfter(full, SchemeSeparator) == a;
    assert a[9] == ':';
  }

  /** Trimming and dropping the slash on a concrete input. */
  lemma CleanExample(a: string)
    requires a == " example.com/ "
    ensures Clean(a) == "example.com"
  {
    var c := "example.com/";
    assert SkipLeading(a, 0) == 1 by {
      assert IsWhitespace(a[0]) && !IsWhitespace(a[1]);
      assert SkipLeading(a, 1) == 1;
    }
    assert SkipTrailing(a, 1, |a|) == |a| - 1 by {
      assert IsWhitespace(a[|a| - 1]) && !IsWhitespace(a[|a| - 2]);
      assert SkipTrailing(a, 1, |a| - 1) == |a| - 1;
    }
    assert Trim(a) == c;
    assert EndsWith(c, "/") by { assert c[|c| - 1..] == "/"; }
    assert c[..|c| - 1] == "example.com";
  }

  /** Surrounding blanks and one trailing '/' are dropped before the scheme and port are added. */
  lemma BlanksAndSlashExample(a: string)
    requires a == " example.com/ "
    ensures Normalize(a) == "http://example.com:7347"
  {
    CleanExample(a);
    var h := "example.com";
    assert !StartsWith(h, "http") by { assert h[..4][0] == 'e'; }
    var full := Scheme + h;
    assert full == "http://example.com";
    assert OccursAt(full, SchemeSeparator, 4) by { assert full[4..7] == "://"; }
    forall j | 0 <= j < 4 ensures !OccursAt(full, SchemeSeparator, j) {
      assert full[j..j + 3][0] == full[j];
    }
    assert IndexOf(full, SchemeSeparator) == Some(4);
    assert SubstringAfter(full, SchemeSeparator) == h;
    assert ':' !in h;
  }

  /**
   * A normalised address that ends neither in whitespace nor in '/' is left as it is by a
   * second normalisation.
   */
  lemma NormalizeFixpoint(address: string)
    requires var r := Normalize(address); !IsWhitespace(r[|r| - 1]) && r[|r| - 1] != '/'
    ensures Normalize(Normalize(address)) == Normalize(address)
  {
    var r := Normalize(address);
    assert r[0] == 'h' by { assert r[..4][0] == r[0]; }
    TrimKeepsTrimmed(r);
    assert !EndsWith(r, "/") by { assert r[|r| - 1..] == [r[|r| - 1]]; }
    assert Clean(r) == r;
    NormalizeHasPort(address);
  }
}
