/** The server-side file type allowlist. */
module ContentTypes {
  import opened Domain

  datatype AllowedType = AllowedType(mime: string, families: seq<string>)

  const ALLOWED: map<string, AllowedType> := map[
    ".jpg" := AllowedType("image/jpeg", ["image/jpeg"]),
    ".jpeg" := AllowedType("image/jpeg", ["image/jpeg"]),
    ".png" := AllowedType("image/png", ["image/png"]),
    ".webp" := AllowedType("image/webp", ["image/webp"]),
    ".heic" := AllowedType("image/heic", []),
    ".pdf" := AllowedType("application/pdf", ["application/pdf"]),
    ".xml" := AllowedType("application/xml", ["text/xml", "text/plain", "application/xml"]),
    ".txt" := AllowedType("text/plain", ["text/plain"]),
    ".csv" := AllowedType("text/csv", ["text/plain", "text/csv"])
  ]

  /** The suffix from the last dot of the last path element, or "" if it has no dot. */
  function Extension(filename: string): (ext: string)
    ensures |ext| <= |filename| && filename[|filename| - |ext|..] == ext
    ensures '/' !in ext
    ensures ext != "" ==> ext[0] == '.' && '.' !in ext[1..]
    ensures ext == "" ==> forall i :: 0 <= i < |filename| && filename[i] == '.' ==> '/' in filename[i..]
  {
    var k := ExtensionStart(filename, |filename|);
    assert forall i, j :: 0 <= i < j < |filename| ==> filename[j] == filename[i..][j - i];
    filename[k..]
  }

  /** Where the last dot of filename[..n] is that no separator follows, or the end. */
  function ExtensionStart(filename: string, n: nat): (k: nat)
    requires n <= |filename|
    ensures k < n || k == |filename|
    ensures k < n ==> filename[k] == '.' && forall j :: k < j < n ==> filename[j] != '.' && filename[j] != '/'
    ensures k >= n ==> forall i :: 0 <= i < n && filename[i] == '.' ==> exists j :: i < j < n && filename[j] == '/'
  {
    if n == 0 || filename[n - 1] == '/' then |filename|
    else if filename[n - 1] == '.' then n - 1
    else ExtensionStart(filename, n - 1)
  }

  /** Lower-casing of one character. Besides A to Z only the dotted capital I and the Kelvin
      sign lower to an ASCII letter, so every other character may stay as it is: it cannot
      make an extension of the table. */
  function Lower(c: char): char {
    if 'A' <= c <= 'Z' then (c as int + 32) as char
    else if c == '\U{130}' then 'i'
    else if c == '\U{212A}' then 'k'
    else c
  }

  function ToLower(s: string): string {
    seq(|s|, i requires 0 <= i < |s| => Lower(s[i]))
  }

  /** The MIME type the extension of a filename stands for. */
  function TypeOfName(filename: string): Option<string> {
    var ext := ToLower(Extension(filename));
    if ext in ALLOWED then Some(ALLOWED[ext].mime) else None
  }

  /** The content looks like one of the families, or there is none it could look like. */
  predicate LooksLike(sniffed: string, families: seq<string>) {
    families == [] || exists i :: 0 <= i < |families| && families[i] <= sniffed
  }

  /** canonicalContentType: the type to store, or None for ErrUnsupportedMIME. */
  function Canonical(sniff: Bytes -> string, filename: string, content: Bytes): (r: Option<string>)
    ensures r.Some? ==> TypeOfName(filename) == r
  {
    TypeFor(ToLower(Extension(filename)), sniff(content))
  }

  /** The entry of the table for a lower-case extension, if the content looks like it. */
  function TypeFor(ext: string, sniffed: string): Option<string> {
    if ext in ALLOWED && LooksLike(sniffed, ALLOWED[ext].families) then Some(ALLOWED[ext].mime) else None
  }

  function AcceptIf(looks: bool, mime: string): Option<string> {
    if looks then Some(mime) else None
  }

  lemma OneFamily(sniffed: string, a: string)
    ensures LooksLike(sniffed, [a]) <==> a <= sniffed
  {
    assert [a][0] == a;
  }

  lemma TwoFamilies(sniffed: string, a: string, b: string)
    ensures LooksLike(sniffed, [a, b]) <==> a <= sniffed || b <= sniffed
  {
    assert [a, b][0] == a && [a, b][1] == b;
  }

  lemma ThreeFamilies(sniffed: string, a: string, b: string, c: string)
    ensures LooksLike(sniffed, [a, b, c]) <==> a <= sniffed || b <= sniffed || c <= sniffed
  {
    assert [a, b, c][0] == a && [a, b, c][1] == b && [a, b, c][2] == c;
  }

  // ----- The allowlist, up to case --------------------------------------------------------

  /** c is the character small, its ASCII capital, or one of the two other characters that lower
      to an ASCII letter. */
  predicate ReadsAs(c: char, small: char) {
    || (c == small && !('A' <= c <= 'Z'))
    || ('a' <= small <= 'z' && c as int + 32 == small as int)
    || (small == 'i' && c == '\U{130}')
    || (small == 'k' && c == '\U{212A}')
  }

  /** ext reads as the lower-case name, character by character. */
  predicate Spells(ext: string, name: string) {
    |ext| == |name| && forall i :: 0 <= i < |name| ==> ReadsAs(ext[i], name[i])
  }

  predicate IsLowerAscii(name: string) {
    forall i :: 0 <= i < |name| ==> name[i] == '.' || 'a' <= name[i] <= 'z'
  }

  /** Lower-casing keeps the length, moves A to Z by 32 and leaves every other ASCII character. */
  lemma LowersAscii(s: string, i: nat)
    requires i < |s|
    ensures |ToLower(s)| == |s|
    ensures 'A' <= s[i] <= 'Z' ==> ToLower(s)[i] as int == s[i] as int + 32
    ensures s[i] as int < 128 && !('A' <= s[i] <= 'Z') ==> ToLower(s)[i] == s[i]
  {
  }

  lemma SpellsIff(ext: string, name: string)
    requires IsLowerAscii(name)
    ensures Spells(ext, name) <==> ToLower(ext) == name
  {
    if Spells(ext, name) {
      forall i | 0 <= i < |name| ensures ToLower(ext)[i] == name[i] {
        assert ReadsAs(ext[i], name[i]);
      }
    } else if ToLower(ext) == name {
      forall i | 0 <= i < |name| ensures ReadsAs(ext[i], name[i]) {
        assert ToLower(ext)[i] == name[i];
      }
    }
  }

  /** The names of the table, and what each accepts. */
  lemma TableByName(name: string, looks: string)
    ensures
      TypeFor(name, looks) ==
      match name
      case ".jpg" => AcceptIf("image/jpeg" <= looks, "image/jpeg")
      case ".jpeg" => AcceptIf("image/jpeg" <= looks, "image/jpeg")
      case ".png" => AcceptIf("image/png" <= looks, "image/png")
      case ".webp" => AcceptIf("image/webp" <= looks, "image/webp")
      case ".heic" => Some("image/heic")
      case ".pdf" => AcceptIf("application/pdf" <= looks, "application/pdf")
      case ".xml" => AcceptIf("text/xml" <= looks || "text/plain" <= looks || "application/xml" <= looks, "application/xml")
      case ".txt" => AcceptIf("text/plain" <= looks, "text/plain")
      case ".csv" => AcceptIf("text/plain" <= looks || "text/csv" <= looks, "text/csv")
      case _ => None
  {
    OneFamily(looks, "image/jpeg");
    OneFamily(looks, "image/png");
    OneFamily(looks, "image/webp");
    OneFamily(looks, "application/pdf");
    OneFamily(looks, "text/plain");
    TwoFamilies(looks, "text/plain", "text/csv");
    ThreeFamilies(looks, "text/xml", "text/plain", "application/xml");
  }

  /** Which of the names an extension reads as. */
  lemma NamesOf(ext: string)
    ensures Spells(ext, ".jpg") <==> ToLower(ext) == ".jpg"
    ensures Spells(ext, ".jpeg") <==> ToLower(ext) == ".jpeg"
    ensures Spells(ext, ".png") <==> ToLower(ext) == ".png"
    ensures Spells(ext, ".webp") <==> ToLower(ext) == ".webp"
    ensures Spells(ext, ".heic") <==> ToLower(ext) == ".heic"
    ensures Spells(ext, ".pdf") <==> ToLower(ext) == ".pdf"
    ensures Spells(ext, ".xml") <==> ToLower(ext) == ".xml"
    ensures Spells(ext, ".txt") <==> ToLower(ext) == ".txt"
    ensures Spells(ext, ".csv") <==> ToLower(ext) == ".csv"
  {
    SpellsIff(ext, ".jpg");
    SpellsIff(ext, ".jpeg");
    SpellsIff(ext, ".png");
    SpellsIff(ext, ".webp");
    SpellsIff(ext, ".heic");
    SpellsIff(ext, ".pdf");
    SpellsIff(ext, ".xml");
    SpellsIff(ext, ".txt");
    SpellsIff(ext, ".csv");
  }

  /** ext reads as one of the nine. */
  predicate OnTheList(ext: string) {
    || Spells(ext, ".jpg") || Spells(ext, ".jpeg") || Spells(ext, ".png") || Spells(ext, ".webp") || Spells(ext, ".heic")
    || Spells(ext, ".pdf") || Spells(ext, ".xml") || Spells(ext, ".txt") || Spells(ext, ".csv")
  }

  /** A file is accepted exactly if its extension is, in whatever case, one of the nine, and, where
      the sniffer knows the format, its bytes look like it. */
  lemma FormatsMustMatch(sniff: Bytes -> string, filename: string, content: Bytes)
    ensures
      var ext, looks, r := Extension(filename), sniff(content), Canonical(sniff, filename, content);
      && (Spells(ext, ".jpg") || Spells(ext, ".jpeg") ==> r == AcceptIf("image/jpeg" <= looks, "image/jpeg"))
      && (Spells(ext, ".png") ==> r == AcceptIf("image/png" <= looks, "image/png"))
      && (Spells(ext, ".webp") ==> r == AcceptIf("image/webp" <= looks, "image/webp"))
      && (Spells(ext, ".heic") ==> r == Some("image/heic"))
      && (Spells(ext, ".pdf") ==> r == AcceptIf("application/pdf" <= looks, "application/pdf"))
      && (Spells(ext, ".xml") ==>
            r == AcceptIf("text/xml" <= looks || "text/plain" <= looks || "application/xml" <= looks, "application/xml"))
      && (Spells(ext, ".txt") ==> r == AcceptIf("text/plain" <= looks, "text/plain"))
      && (Spells(ext, ".csv") ==> r == AcceptIf("text/plain" <= looks || "text/csv" <= looks, "text/csv"))
      && (r.Some? ==> OnTheList(ext))
  {
    NamesOf(Extension(filename));
    TableByName(ToLower(Extension(filename)), sniff(content));
  }

  /** a and b differ at most in the case of ASCII letters. */
  predicate SameButCase(a: string, b: string) {
    |a| == |b| && forall i :: 0 <= i < |a| ==> SameLetter(a[i], b[i])
  }

  predicate SameLetter(c: char, d: char) {
    c == d || ('A' <= c <= 'Z' && c as int + 32 == d as int) || ('A' <= d <= 'Z' && d as int + 32 == c as int)
  }

  lemma {:induction false} StartOfSame(a: string, b: string, n: nat)
    requires SameButCase(a, b) && n <= |a|
    ensures ExtensionStart(a, n) == ExtensionStart(b, n)
  {
    if n > 0 {
      assert SameLetter(a[n - 1], b[n - 1]);
      StartOfSame(a, b, n - 1);
    }
  }

  lemma ExtensionsAreSame(a: string, b: string)
    requires SameButCase(a, b)
    ensures SameButCase(Extension(a), Extension(b))
  {
    StartOfSame(a, b, |a|);
    var k := ExtensionStart(a, |a|);
    forall i | 0 <= i < |a| - k ensures SameLetter(a[k..][i], b[k..][i]) {
      assert SameLetter(a[k + i], b[k + i]);
    }
  }

  lemma LowersToSame(x: string, y: string)
    requires SameButCase(x, y)
    ensures ToLower(x) == ToLower(y)
  {
    forall i | 0 <= i < |x| ensures ToLower(x)[i] == ToLower(y)[i] {
      assert SameLetter(x[i], y[i]);
    }
  }

  /** The case of ASCII letters in a filename does not matter. */
  lemma CaseDoesNotMatter(sniff: Bytes -> string, a: string, b: string, content: Bytes)
    requires SameButCase(a, b)
    ensures Canonical(sniff, a, content) == Canonical(sniff, b, content)
  {
    ExtensionsAreSame(a, b);
    LowersToSame(Extension(a), Extension(b));
  }
}
