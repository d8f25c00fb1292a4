/** Names of ImageScanJobs and of the batch Jobs derived from them. */
module Naming {
  import opened Cluster

  type Byte = b: int | 0 <= b < 256

  /** What sha256.Sum256 returns; the hash itself is left uninterpreted. */
  type Sum256 = s: seq<Byte> | |s| == 32 witness seq(32, _ => 0)

  function HexDigit(n: int): (c: char)
    requires 0 <= n < 16
    ensures c != '-'
  {
    "0123456789abcdef"[n]
  }

  /** The `%x` verb on a byte slice. */
  function HexEncode(bytes: seq<Byte>): (s: string)
    ensures |s| == 2 * |bytes|
    ensures '-' !in s
  {
    if bytes == [] then "" else [HexDigit(bytes[0] / 16), HexDigit(bytes[0] % 16)] + HexEncode(bytes[1..])
  }

  /** The part of the name that stands for the image content. */
  function NameKey(sha: string -> Sum256, image: string, digest: string): string {
    if |digest| > 15 then digest[7..15] else HexEncode(sha(image)[..8])
  }

  function ImageToJobName(sha: string -> Sum256, image: string, scanner: string, digest: string): string {
    "scan-" + NameKey(sha, image, digest) + "-" + scanner
  }

  function ManualScanJobName(sha: string -> Sum256, image: string, scanner: string): string {
    "scan-" + HexEncode(sha(image)[..8]) + "-" + scanner
  }

  const TRIVY_SUFFIX := "-trivy"
  const GRYPE_SUFFIX := "-grype"

  function ScannerJobSuffix(scanner: string): string {
    if scanner == "grype" then GRYPE_SUFFIX else TRIVY_SUFFIX
  }

  /** Where the batch Job of a scan job lives. */
  function JobKey(k: Key, scanner: string): Key {
    Key(k.ns, k.name + ScannerJobSuffix(scanner))
  }

  // ── Names parse back ────────────────────────────────────────────────────

  lemma HexDigitInjective(m: int, n: int)
    requires 0 <= m < 16 && 0 <= n < 16 && HexDigit(m) == HexDigit(n)
    ensures m == n
  {
    var digits := "0123456789abcdef";
    assert forall i, j | 0 <= i < j < 16 :: digits[i] != digits[j];
  }

  lemma {:induction false} HexEncodeInjective(a: seq<Byte>, b: seq<Byte>)
    requires HexEncode(a) == HexEncode(b)
    ensures a == b
  {
    assert |a| == |b|;
    if a != [] {
      var x, y := HexEncode(a), HexEncode(b);
      assert x[0] == y[0] && x[1] == y[1] && x[2..] == y[2..];
      assert x[2..] == HexEncode(a[1..]) && y[2..] == HexEncode(b[1..]);
      HexDigitInjective(a[0] / 16, b[0] / 16);
      HexDigitInjective(a[0] % 16, b[0] % 16);
      HexEncodeInjective(a[1..], b[1..]);
      assert a[0] == b[0];
      assert a == [a[0]] + a[1..] && b == [b[0]] + b[1..];
    }
  }

  lemma {:induction false} HexEncodeAt(bytes: seq<Byte>, k: nat)
    requires k < |bytes|
    ensures HexEncode(bytes)[2 * k] == "0123456789abcdef"[bytes[k] / 16]
    ensures HexEncode(bytes)[2 * k + 1] == "0123456789abcdef"[bytes[k] % 16]
  {
    if k > 0 {
      HexEncodeAt(bytes[1..], k - 1);
    }
  }

  lemma SplitName(key: string, scanner: string)
    ensures var name := "scan-" + key + "-" + scanner;
      && |name| == 6 + |key| + |scanner|
      && name[5..5 + |key|] == key
      && name[5 + |key|] == '-'
      && name[6 + |key|..] == scanner
  {}

  /** A name that used a digest is never the name of a failed digest lookup. */
  lemma {:induction false} DigestNameIsNoFallback(
    sha: string -> Sum256, image: string, scanner: string, digest: string,
    otherImage: string, otherScanner: string, otherDigest: string)
    requires |digest| > 15 && |otherDigest| <= 15
    ensures ImageToJobName(sha, image, scanner, digest)
         != ImageToJobName(sha, otherImage, otherScanner, otherDigest)
  {
    var fallback := NameKey(sha, otherImage, otherDigest);
    SplitName(NameKey(sha, image, digest), scanner);
    SplitName(fallback, otherScanner);
    // position 13 holds the separator in one name and a hex digit in the other
    assert ImageToJobName(sha, image, scanner, digest)[13] == '-';
    assert ImageToJobName(sha, otherImage, otherScanner, otherDigest)[13] == fallback[8] && fallback[8] in fallback;
  }

  /** A name determines its content key and its scanner, whatever the scanner string contains. */
  lemma {:induction false} NamesParseUniquely(
    sha: string -> Sum256, image: string, scanner: string, digest: string,
    otherImage: string, otherScanner: string, otherDigest: string)
    ensures ImageToJobName(sha, image, scanner, digest) == ImageToJobName(sha, otherImage, otherScanner, otherDigest)
       <==> NameKey(sha, image, digest) == NameKey(sha, otherImage, otherDigest) && scanner == otherScanner
  {
    SplitName(NameKey(sha, image, digest), scanner);
    SplitName(NameKey(sha, otherImage, otherDigest), otherScanner);
    if |digest| > 15 && |otherDigest| <= 15 {
      DigestNameIsNoFallback(sha, image, scanner, digest, otherImage, otherScanner, otherDigest);
      assert |NameKey(sha, image, digest)| == 8;
    } else if |digest| <= 15 && |otherDigest| > 15 {
      DigestNameIsNoFallback(sha, otherImage, otherScanner, otherDigest, image, scanner, digest);
      assert |NameKey(sha, otherImage, otherDigest)| == 8;
    }
  }

  /** Two digests give one name exactly when the eight characters behind the algorithm agree, and the scanners. */
  lemma {:induction false} DigestNamesIff(
    sha: string -> Sum256, image: string, scanner: string, digest: string,
    otherImage: string, otherScanner: string, otherDigest: string)
    requires |digest| > 15 && |otherDigest| > 15
    ensures ImageToJobName(sha, image, scanner, digest) == ImageToJobName(sha, otherImage, otherScanner, otherDigest)
       <==> digest[7..15] == otherDigest[7..15] && scanner == otherScanner
  {
    SplitName(digest[7..15], scanner);
    SplitName(otherDigest[7..15], otherScanner);
  }

  /** A name, spelled out. Between the prefix and the scanner it has those eight characters, or the first eight bytes
      of the image's hash in hexadecimal. */
  lemma {:induction false} NameSpelled(sha: string -> Sum256, image: string, scanner: string, digest: string)
    ensures |digest| > 15 ==> ImageToJobName(sha, image, scanner, digest) == "scan-" + digest[7..15] + "-" + scanner
    ensures |digest| <= 15 ==>
      var name := ImageToJobName(sha, image, scanner, digest);
      && |name| == 22 + |scanner| && name[..5] == "scan-" && name[21] == '-' && name[22..] == scanner
      && forall k | 0 <= k < 8 ::
           && name[5 + 2 * k] == "0123456789abcdef"[sha(image)[k] / 16]
           && name[6 + 2 * k] == "0123456789abcdef"[sha(image)[k] % 16]
  {
    if |digest| <= 15 {
      var hash := sha(image)[..8];
      SplitName(HexEncode(hash), scanner);
      forall k | 0 <= k < 8
        ensures HexEncode(hash)[2 * k] == "0123456789abcdef"[sha(image)[k] / 16]
        ensures HexEncode(hash)[2 * k + 1] == "0123456789abcdef"[sha(image)[k] % 16]
      {
        HexEncodeAt(hash, k);
      }
    }
  }

  /** The web server's name is the controller's name for a lookup that failed, and only for that
      or for another image with the same first eight hash bytes. */
  lemma {:induction false} ManualNameIsFallbackName(
    sha: string -> Sum256, image: string, scanner: string, otherImage: string, otherScanner: string, digest: string)
    ensures ManualScanJobName(sha, image, scanner) == ImageToJobName(sha, otherImage, otherScanner, digest)
       <==> |digest| <= 15 && sha(image)[..8] == sha(otherImage)[..8] && scanner == otherScanner
  {
    NamesParseUniquely(sha, image, scanner, "", otherImage, otherScanner, digest);
    if |digest| > 15 {
      DigestNameIsNoFallback(sha, otherImage, otherScanner, digest, image, scanner, "");
    } else if NameKey(sha, image, "") == NameKey(sha, otherImage, digest) {
      HexEncodeInjective(sha(image)[..8], sha(otherImage)[..8]);
    }
  }

  /** The batch Job of a scan job has its namespace, and its name with the scanner behind it; a scanner other than
      grype counts as trivy. */
  lemma {:induction false} JobKeySpelled(k: Key, scanner: string)
    ensures JobKey(k, scanner) == Key(k.ns, k.name + if scanner == "grype" then "-grype" else "-trivy")
  {}

  /** Both suffixes have six characters, so two scan jobs never derive the same batch Job. */
  lemma {:induction false} JobKeyInjective(a: Key, scannerA: string, b: Key, scannerB: string)
    ensures JobKey(a, scannerA) == JobKey(b, scannerB)
       <==> a == b && ScannerJobSuffix(scannerA) == ScannerJobSuffix(scannerB)
  {
    var x, y := a.name + ScannerJobSuffix(scannerA), b.name + ScannerJobSuffix(scannerB);
    assert x[..|x| - 6] == a.name && y[..|y| - 6] == b.name;
    assert x[|x| - 6..] == ScannerJobSuffix(scannerA) && y[|y| - 6..] == ScannerJobSuffix(scannerB);
  }
}
