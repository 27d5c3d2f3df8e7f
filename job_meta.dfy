/** The per-request metadata of a traversal (jobmeta_t in dfu_traverse.hpp):
    whether it allocates or reserves, the job id, the start time and the
    duration, the last read from the jobspec's "system" attributes. */
module DfuJobMeta {
  import opened Wrappers
  import opened Jobspec

  datatype JobMeta = JobMeta(allocate: bool, jobid: int, at: int, duration: nat)

  /** A default-initialised jobmeta_t: allocate, no job, no time, and the
      system default duration (a build-time constant, here a parameter). */
  function DefaultJobMeta(systemDefaultDuration: nat): (m: JobMeta)
    ensures m.allocate && m.jobid == -1 && m.at == -1 && m.duration == systemDefaultDuration
  {
    JobMeta(true, -1, -1, systemDefaultDuration)
  }

  const SYSTEM_KEY: string := "system"
  const DURATION_KEY: string := "duration"

  // ---------------------------------------------------------------------
  // std::atoll
  // ---------------------------------------------------------------------

  predicate IsSpace(c: char)
  {
    c == ' ' || c == '\t' || c == '\n' || c == '\r' || c == 12 as char || c == 11 as char
  }

  predicate IsDigit(c: char)
  {
    '0' <= c <= '9'
  }

  function SkipSpaces(s: string): string
  {
    if |s| > 0 && IsSpace(s[0]) then SkipSpaces(s[1..]) else s
  }

  /** The longest prefix of decimal digits. */
  function LeadingDigits(s: string): string
  {
    if |s| > 0 && IsDigit(s[0]) then [s[0]] + LeadingDigits(s[1..]) else []
  }

  /** The value of a string of decimal digits. */
  function DigitsValue(ds: string): nat
  {
    if |ds| == 0 then 0
    else
      var last := ds[|ds| - 1];
      DigitsValue(ds[..|ds| - 1]) * 10 + (if IsDigit(last) then last as int - '0' as int else 0)
  }

  /** `std::atoll`: leading white space, an optional sign, then the longest
      run of digits; no digit reads as 0. Values beyond int64 are not
      modelled. */
  function Atoll(s: string): int
  {
    var t := SkipSpaces(s);
    if |t| > 0 && t[0] == '-' then 0 - DigitsValue(LeadingDigits(t[1..]))
    else if |t| > 0 && t[0] == '+' then DigitsValue(LeadingDigits(t[1..]))
    else DigitsValue(LeadingDigits(t))
  }

  /** The decimal rendering of n. */
  function Decimal(n: nat): string
  {
    if n < 10 then [('0' as int + n) as char]
    else Decimal(n / 10) + [('0' as int + n % 10) as char]
  }

  lemma {:induction false} DecimalIsDigits(n: nat)
    ensures |Decimal(n)| > 0
    ensures forall k :: 0 <= k < |Decimal(n)| ==> IsDigit(Decimal(n)[k])
    ensures DigitsValue(Decimal(n)) == n
  {
    if n >= 10 {
      DecimalIsDigits(n / 10);
      var d := Decimal(n);
      assert d[..|d| - 1] == Decimal(n / 10);
    }
  }

  lemma {:induction false} LeadingDigitsOfDigits(s: string)
    requires forall k :: 0 <= k < |s| ==> IsDigit(s[k])
    ensures LeadingDigits(s) == s
  {
    if |s| > 0 {
      LeadingDigitsOfDigits(s[1..]);
    }
  }

  /** atoll reads back a decimal rendering, with or without a leading
      minus sign. */
  lemma AtollReadsDecimal(n: nat)
    ensures Atoll(Decimal(n)) == n
    ensures Atoll("-" + Decimal(n)) == 0 - n
  {
    DecimalIsDigits(n);
    LeadingDigitsOfDigits(Decimal(n));
    assert ("-" + Decimal(n))[1..] == Decimal(n);
  }

  /** atoll stops at the first character that is not a digit. */
  lemma AtollStopsAtNonDigit()
    ensures Atoll("12h") == 12 && Atoll("  7") == 7 && Atoll("x") == 0
  {
    assert LeadingDigits("12h") == "12" by {
      assert LeadingDigits("h") == [];
      assert "12h"[1..] == "2h" && "2h"[1..] == "h";
    }
    assert DigitsValue("12") == 12 by {
      assert "12"[..1] == "1";
      assert "1"[..0] == "";
    }
    assert SkipSpaces("  7") == "7" by {
      assert "  7"[1..] == " 7" && " 7"[1..] == "7";
    }
    assert LeadingDigits("7") == "7" by {
      assert "7"[1..] == "";
    }
    assert DigitsValue("7") == 7 by {
      assert "7"[..0] == "";
    }
  }

  // ---------------------------------------------------------------------
  // build
  // ---------------------------------------------------------------------

  /** `jobmeta_t::build` as written: it looks the "system" attribute up and
      dereferences the result without checking it was found, so it is only
      defined for a jobspec that has one. */
  function BuildAsWritten(m: JobMeta, jspec: Jobspec, alloc: bool, id: int, t: int): (r: JobMeta)
    requires SYSTEM_KEY in jspec.attributes
    ensures r.at == t && r.jobid == id && r.allocate == alloc
  {
    var sys := jspec.attributes[SYSTEM_KEY];
    JobMeta(alloc, id, t, if DURATION_KEY in sys then ToUint64(Atoll(sys[DURATION_KEY])) else m.duration)
  }

  /** `jobmeta_t::build` as evidently intended: a missing "system" attribute
      keeps the current duration. */
  function Build(m: JobMeta, jspec: Jobspec, alloc: bool, id: int, t: int): (r: JobMeta)
  {
    if SYSTEM_KEY in jspec.attributes then BuildAsWritten(m, jspec, alloc, id, t)
    else JobMeta(alloc, id, t, m.duration)
  }

  /** build records the request and takes the duration from the "system"
      attributes when they carry one, and keeps the current one otherwise;
      it agrees with the code as written wherever that is defined. */
  lemma BuildSetsRequest(m: JobMeta, jspec: Jobspec, alloc: bool, id: int, t: int)
    ensures var r := Build(m, jspec, alloc, id, t);
      r.at == t && r.jobid == id && r.allocate == alloc
      && (SYSTEM_KEY in jspec.attributes && DURATION_KEY in jspec.attributes[SYSTEM_KEY] ==>
            r.duration == ToUint64(Atoll(jspec.attributes[SYSTEM_KEY][DURATION_KEY])))
      && (!(SYSTEM_KEY in jspec.attributes && DURATION_KEY in jspec.attributes[SYSTEM_KEY]) ==>
            r.duration == m.duration)
      && (SYSTEM_KEY in jspec.attributes ==> r == BuildAsWritten(m, jspec, alloc, id, t))
  {
  }

  /** A negative duration wraps around to a huge unsigned one. */
  lemma NegativeDurationWraps(m: JobMeta, alloc: bool, id: int, t: int)
    ensures var j := Jobspec(1, [], [], map[SYSTEM_KEY := map[DURATION_KEY := "-1"]]);
      Build(m, j, alloc, id, t).duration == UINT64_LIMIT - 1
  {
    AtollReadsDecimal(1);
    assert Decimal(1) == "1";
  }

  /** The jobspec parser accepts a jobspec with no attribute at all, and for
      it the code as written is undefined: its "system" lookup finds
      nothing. */
  lemma AcceptedJobspecWithoutSystem()
    ensures var n := Map([("version", Scalar("1", Some(1))), ("resources", Seq([])),
                          ("tasks", Seq([])), ("attributes", Map([]))]);
      DecodeJobspec(n).Some? && SYSTEM_KEY !in DecodeJobspec(n).value.attributes
  {
    var n := Map([("version", Scalar("1", Some(1))), ("resources", Seq([])),
                  ("tasks", Seq([])), ("attributes", Map([]))]);
    assert Lookup(n, "version") == Some(Scalar("1", Some(1)));
    assert Lookup(n, "resources") == Some(Seq([]));
    assert Lookup(n, "tasks") == Some(Seq([]));
    assert Lookup(n, "attributes") == Some(Map([]));
  }
}
