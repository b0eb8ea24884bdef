/** The SQLite extension the server loads into its library database: the
    scalar function daap_no_zero(new_value, old_value) and the "DAAP"
    collation, which puts names that begin with a letter before all others.
    The Unicode primitives of libunistring (u8_mbtoucr, uc_is_alpha,
    u8_casecmp) are parameters of the collation. */
module SqlExt {
  import opened Common

  /** The storage class of an SQLite value, with the integer where there is one. */
  datatype SqlValue = Integer(i: int) | Real | Text(s: string) | Blob | Null

  /** What a scalar function reports back through sqlite3_result_*. */
  datatype SqlResult = IntResult(v: int) | ErrorResult(msg: string)

  const INT64_MIN: int := -0x8000_0000_0000_0000
  const INT64_MAX: int := 0x7FFF_FFFF_FFFF_FFFF

  predicate IsInt64(x: int) { INT64_MIN <= x <= INT64_MAX }

  /** An SQLite integer value always fits sqlite3_int64. */
  predicate WellFormed(v: SqlValue) { v.Integer? ==> IsInt64(v.i) }

  const ARG_COUNT_ERROR := "daap_no_zero() requires 2 parameters, new_value and old_value"
  const ARG_TYPE_ERROR := "daap_no_zero() requires 2 integer parameters"

  /** daap_no_zero(new_value, old_value): the new value unless it is zero. */
  function DaapNoZero(args: seq<SqlValue>): (r: SqlResult)
    requires forall k :: 0 <= k < |args| ==> WellFormed(args[k])
    ensures |args| != 2 ==> r == ErrorResult(ARG_COUNT_ERROR)
    ensures |args| == 2 && !(args[0].Integer? && args[1].Integer?) ==> r == ErrorResult(ARG_TYPE_ERROR)
    ensures r.IntResult? <==> |args| == 2 && args[0].Integer? && args[1].Integer?
    ensures r.IntResult? ==> IsInt64(r.v)
    ensures r.IntResult? && args[0].i != 0 ==> r.v == args[0].i
    ensures r.IntResult? && args[0].i == 0 ==> r.v == args[1].i
  {
    if |args| != 2 then ErrorResult(ARG_COUNT_ERROR)
    else if !args[0].Integer? || !args[1].Integer? then ErrorResult(ARG_TYPE_ERROR)
    else
      assert WellFormed(args[0]) && WellFormed(args[1]);
      if args[0].i != 0 then IntResult(args[0].i) else IntResult(args[1].i)
  }

  /** The result of daap_no_zero is zero only when both values are zero, and
      applying it again with the same new value changes nothing: an update
      `x = daap_no_zero(v, x)` is idempotent. */
  lemma NoZeroIdempotent(newValue: int, oldValue: int)
    requires IsInt64(newValue) && IsInt64(oldValue)
    ensures DaapNoZero([Integer(newValue), Integer(oldValue)]).IntResult?
    ensures var once := DaapNoZero([Integer(newValue), Integer(oldValue)]).v;
            (once == 0 <==> newValue == 0 && oldValue == 0) &&
            DaapNoZero([Integer(newValue), Integer(once)]) == IntResult(once)
  {
  }

  /** u8_mbtoucr: the first character of a UTF-8 string, or None when it
      does not decode. */
  type Decoder = seq<bv8> -> Option<int>

  /** u8_casecmp with NFD normalisation: None when it fails, otherwise the
      comparison result it stores. */
  type CaseCompare = (seq<bv8>, seq<bv8>) -> Option<int>

  /** The DAAP collation. Strings whose first character is not alphabetic
      sort after those whose first character is; strings of the same kind
      compare case- and normalisation-insensitively; a decoding or compare
      failure makes the two strings equal. */
  function DaapCollate(left: seq<bv8>, right: seq<bv8>, decode: Decoder,
                       isAlpha: int -> bool, casecmp: CaseCompare): (r: int)
    ensures decode(left).None? || decode(right).None? ==> r == 0
    ensures (decode(left).Some? && decode(right).Some? &&
             !isAlpha(decode(left).value) && isAlpha(decode(right).value)) ==> r == 1
    ensures (decode(left).Some? && decode(right).Some? &&
             isAlpha(decode(left).value) && !isAlpha(decode(right).value)) ==> r == -1
    ensures (decode(left).Some? && decode(right).Some? &&
             isAlpha(decode(left).value) == isAlpha(decode(right).value)) ==>
              r == (match casecmp(left, right) case None => 0 case Some(c) => c)
  {
    match (decode(left), decode(right))
    case (Some(lch), Some(rch)) =>
      var lalpha := isAlpha(lch);
      var ralpha := isAlpha(rch);
      if !lalpha && ralpha then 1
      else if lalpha && !ralpha then -1
      else (match casecmp(left, right) case None => 0 case Some(c) => c)
    case _ => 0
  }

  function Sign(x: int): int { if x < 0 then -1 else if x > 0 then 1 else 0 }

  /** The collation is antisymmetric whenever the case-insensitive compare is:
      swapping the arguments flips the sign of the result. */
  lemma CollateAntisymmetric(left: seq<bv8>, right: seq<bv8>, decode: Decoder,
                             isAlpha: int -> bool, casecmp: CaseCompare)
    requires casecmp(left, right).None? <==> casecmp(right, left).None?
    requires casecmp(left, right).Some? ==>
               Sign(casecmp(left, right).value) == -Sign(casecmp(right, left).value)
    ensures Sign(DaapCollate(left, right, decode, isAlpha, casecmp)) ==
            -Sign(DaapCollate(right, left, decode, isAlpha, casecmp))
  {
  }

  /** A name that begins with a letter sorts strictly before one that does
      not, whichever side of the comparison it is on. */
  lemma AlphaSortsFirst(alpha: seq<bv8>, other: seq<bv8>, decode: Decoder,
                        isAlpha: int -> bool, casecmp: CaseCompare)
    requires decode(alpha).Some? && isAlpha(decode(alpha).value)
    requires decode(other).Some? && !isAlpha(decode(other).value)
    ensures DaapCollate(alpha, other, decode, isAlpha, casecmp) < 0
    ensures DaapCollate(other, alpha, decode, isAlpha, casecmp) > 0
  {
  }
}
