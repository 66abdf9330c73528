/**
 * Rules shared by the two upload components (the document slot of
 * src/components/forms/FileUpload.tsx and the local picker of
 * src/components/ui/file-upload.tsx): the per-file size limit, the search
 * for the first file over it, which part of an admitted batch is kept, the
 * message that names the rejected file, and the unit `formatSize` picks.
 */
module FileLimits {
  import opened Options

  /** What the components read of a browser `File`: its name and its size in bytes. */
  datatype File = File(name: string, size: nat)

  /** `maxSizeMB * 1024 * 1024`: the limit is in mebibytes. */
  function MaxBytes(maxSizeMB: nat): (b: nat)
    ensures b == maxSizeMB * 0x10_0000
    ensures maxSizeMB > 0 ==> b >= 0x10_0000
  {
    maxSizeMB * 1024 * 1024
  }

  /** Every file of `files` is within the limit (the rejection test is strict: `size > maxBytes`). */
  predicate AllWithin(files: seq<File>, maxBytes: nat) {
    forall i :: 0 <= i < |files| ==> files[i].size <= maxBytes
  }

  /**
   * The position at which the scanning loop of both components stops: the first
   * file whose size exceeds the limit, or None when the whole batch passes.
   */
  function FirstOversize(files: seq<File>, maxBytes: nat): (r: Option<nat>)
    ensures r.None? <==> AllWithin(files, maxBytes)
    ensures r.Some? ==> r.value < |files| && files[r.value].size > maxBytes
    ensures r.Some? ==> AllWithin(files[..r.value], maxBytes)
  {
    if |files| == 0 then None
    else if files[0].size > maxBytes then Some(0)
    else match FirstOversize(files[1..], maxBytes)
      case None => None
      case Some(k) =>
        assert files[1..][..k] == files[1..k + 1];
        Some(k + 1)
  }

  /** A loop that has checked a prefix and stops at an oversized file has found the first one. */
  lemma FirstOversizeAt(files: seq<File>, maxBytes: nat, i: nat)
    requires i < |files| && AllWithin(files[..i], maxBytes) && files[i].size > maxBytes
    ensures FirstOversize(files, maxBytes) == Some(i)
  {
  }

  /** The size boundary: a file of exactly the limit is never the rejected one. */
  lemma ExactLimitPasses(files: seq<File>, maxSizeMB: nat, i: nat)
    requires i < |files| && files[i].size == MaxBytes(maxSizeMB)
    ensures FirstOversize(files, MaxBytes(maxSizeMB)) != Some(i)
  {
  }

  /** One byte over the limit rejects a one-file batch; exactly the limit admits it. */
  lemma SizeBoundary(name: string, maxSizeMB: nat)
    ensures FirstOversize([File(name, MaxBytes(maxSizeMB))], MaxBytes(maxSizeMB)) == None
    ensures FirstOversize([File(name, MaxBytes(maxSizeMB) + 1)], MaxBytes(maxSizeMB)) == Some(0)
  {
  }

  /**
   * The files kept from an admitted batch: all of them in multi-file mode, only
   * the first (none for an empty batch) in single-file mode (`slice(0, 1)`).
   */
  function Admit(files: seq<File>, multiple: bool): (r: seq<File>)
    ensures r <= files
    ensures multiple ==> r == files
    ensures !multiple ==> |r| == (if |files| == 0 then 0 else 1)
  {
    if multiple then files else files[..if |files| == 0 then 0 else 1]
  }

  /**
   * The decimal text of a natural number, as a template literal renders an
   * integer below 10^21 (from there on JavaScript writes an exponent): no
   * leading zero, and a single "0" for zero.
   */
  function Decimal(n: nat): (s: string)
    ensures |s| >= 1
    ensures forall i :: 0 <= i < |s| ==> '0' <= s[i] <= '9'
    ensures n < 10 <==> |s| == 1
    ensures s[0] == '0' <==> n == 0
  {
    if n < 10 then DigitValue(n); [Digit(n)] else Decimal(n / 10) + [Digit(n % 10)]
  }

  function Digit(d: nat): char
    requires d < 10
  {
    "0123456789"[d]
  }

  /** The number a string of decimal digits denotes. */
  function DecimalValue(s: string): nat
    requires forall i :: 0 <= i < |s| ==> '0' <= s[i] <= '9'
  {
    if |s| == 0 then 0 else 10 * DecimalValue(s[..|s| - 1]) + (s[|s| - 1] as int - '0' as int)
  }

  /** Reading back the rendered limit gives the limit: the message states the real number. */
  lemma {:induction false} DecimalRoundTrip(n: nat)
    ensures DecimalValue(Decimal(n)) == n
  {
    if n < 10 {
      DigitValue(n);
    } else {
      var s, q, r := Decimal(n), n / 10, n % 10;
      assert s == Decimal(q) + [Digit(r)];
      assert s[..|s| - 1] == Decimal(q);
      DigitValue(r);
      DecimalRoundTrip(q);
      assert DecimalValue(s) == 10 * q + r;
    }
  }

  lemma DigitValue(d: nat)
    requires d < 10
    ensures Digit(d) as int - '0' as int == d
  {
  }

  /** `"<name>" dépasse la taille maximale de <maxSizeMB> Mo`. */
  function OversizeMessage(name: string, maxSizeMB: nat): (m: string)
    ensures |m| > |name| + 1 && m[0] == '"' && m[1..|name| + 1] == name && m[|name| + 1] == '"'
    ensures |m| >= |Decimal(maxSizeMB)| + 3 && m[|m| - |Decimal(maxSizeMB)| - 3..] == Decimal(maxSizeMB) + " Mo"
  {
    "\"" + name + "\" dépasse la taille maximale de " + Decimal(maxSizeMB) + " Mo"
  }

  /** The message names the file: two different names never give the same message. */
  lemma OversizeMessageInjective(a: string, b: string, maxSizeMB: nat)
    requires OversizeMessage(a, maxSizeMB) == OversizeMessage(b, maxSizeMB)
    ensures a == b
  {
    var suffix := "\" dépasse la taille maximale de " + Decimal(maxSizeMB) + " Mo";
    var ma, mb := OversizeMessage(a, maxSizeMB), OversizeMessage(b, maxSizeMB);
    assert ma == "\"" + a + suffix;
    assert mb == "\"" + b + suffix;
    assert |a| == |b|;
    assert a == ma[1..|a| + 1];
  }

  /** The unit `formatSize` writes: "o" below 1024, "Ko" below 1024 * 1024, "Mo" from there on. */
  datatype SizeUnit = Octets | Kilooctets | Megaoctets {
    function Symbol(): string {
      match this
      case Octets => "o"
      case Kilooctets => "Ko"
      case Megaoctets => "Mo"
    }

    function Rank(): nat {
      match this
      case Octets => 0
      case Kilooctets => 1
      case Megaoctets => 2
    }
  }

  function UnitOf(bytes: nat): (u: SizeUnit)
    ensures u == Octets <==> bytes < 1024
    ensures u == Megaoctets <==> bytes >= 1024 * 1024
    ensures u.Symbol() == "o" <==> bytes < 1024
    ensures u.Symbol() == "Mo" <==> bytes >= 1024 * 1024
  {
    if bytes < 1024 then Octets
    else if bytes < 1024 * 1024 then Kilooctets
    else Megaoctets
  }

  /** A larger file never shows a smaller unit. */
  lemma UnitOfMonotone(a: nat, b: nat)
    requires a <= b
    ensures UnitOf(a).Rank() <= UnitOf(b).Rank()
  {
  }
}
