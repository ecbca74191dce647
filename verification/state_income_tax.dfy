/** The state income-tax table of the source: a map from jurisdiction name
    to an average effective state income-tax rate, filled by a run of puts,
    and the state tax deduction looked up in it. */
module StateIncomeTax {

  datatype Option<T> = None | Some(value: T)

  /** One put into the table. */
  datatype Entry = Entry(state: string, rate: real)

  /** The puts at stateIncomeTax.java:16-28, in order. */
  function EntriesPart1(): seq<Entry>
  {
    [
      Entry("Alaska", 0.0564),
      Entry("Delaware", 0.0670),
      Entry("Montana", 0.0689),
      Entry("Wyoming", 0.0743),
      Entry("Nevada", 0.0766),
      Entry("Tenenssee", 0.0797),
      Entry("Idaho", 0.0848),
      Entry("California", 0.0879),
      Entry("South Carolina", 0.0884),
      Entry("Florida", 0.0894),
      Entry("Oregon", 0.0922),
      Entry("Utah", 0.0925),
      Entry("Colorado", 0.0934)
    ]
  }

  /** The puts at stateIncomeTax.java:29-41, in order. */
  function EntriesPart2(): seq<Entry>
  {
    [
      Entry("Alabama", 0.0943),
      Entry("Arizona", 0.0960),
      Entry("South Dakota", 0.0977),
      Entry("Washington DC", 0.10),
      Entry("North Dakota", 0.1003),
      Entry("New Hampshire", 0.1009),
      Entry("Louisiana", 0.1033),
      Entry("Hawaii", 0.1033),
      Entry("West Virginia", 0.1038),
      Entry("Georgia", 0.1057),
      Entry("North Carolina", 0.1063),
      Entry("New Mexico", 0.1073),
      Entry("Oklahoma", 0.1070)
    ]
  }

  /** The puts at stateIncomeTax.java:42-54, in order. */
  function EntriesPart3(): seq<Entry>
  {
    [
      Entry("Virginia", 0.1089),
      Entry("Vermont", 0.1089),
      Entry("Missouri", 0.1102),
      Entry("Texas", 0.1112),
      Entry("Massachusetts", 0.1152),
      Entry("Minnesota", 0.1159),
      Entry("Maine", 0.1163),
      Entry("Washington", 0.1172),
      Entry("Indiana", 0.1187),
      Entry("Maryland", 0.1192),
      Entry("Kentucky", 0.1201),
      Entry("Mississippi", 0.1214),
      Entry("Kansas", 0.1228)
    ]
  }

  /** The puts at stateIncomeTax.java:55-66, in order. */
  function EntriesPart4(): seq<Entry>
  {
    [
      Entry("Arkansas", 0.1228),
      Entry("Pennsylvania", 0.1233),
      Entry("New Jersey", 0.1263),
      Entry("Iowa", 0.1284),
      Entry("Michigan", 0.13),
      Entry("Ohio", 0.1306),
      Entry("Connecticut", 0.1356),
      Entry("Rhode Island", 0.1357),
      Entry("New York", 0.1358),
      Entry("Wisconsin", 0.1360),
      Entry("Nebraska", 0.1380),
      Entry("Illinois", 0.1476)
    ]
  }

  /** The 51 puts that SetMap performs, in the order it performs them. */
  function Entries(): (r: seq<Entry>)
    ensures |r| == 51
    ensures r[0] == Entry("Alaska", 0.0564) && r[50] == Entry("Illinois", 0.1476)
  {
    EntriesPart1() + EntriesPart2() + EntriesPart3() + EntriesPart4()
  }

  /** The map that results from putting each entry of puts into m, in
      order; a later put of a name overwrites an earlier one. */
  function PutAll(m: map<string, real>, puts: seq<Entry>): (r: map<string, real>)
    ensures m.Keys <= r.Keys
    ensures forall i :: 0 <= i < |puts| ==> puts[i].state in r
    ensures puts != [] ==> r[puts[|puts| - 1].state] == puts[|puts| - 1].rate
    decreases |puts|
  {
    if puts == [] then m
    else PutAll(m, puts[..|puts| - 1])[puts[|puts| - 1].state := puts[|puts| - 1].rate]
  }

  /** The rate of the last put of name s, if any. */
  function LastRate(puts: seq<Entry>, s: string): Option<real>
    decreases |puts|
  {
    if puts == [] then None
    else if puts[|puts| - 1].state == s then Some(puts[|puts| - 1].rate)
    else LastRate(puts[..|puts| - 1], s)
  }

  predicate Listed(puts: seq<Entry>, s: string)
  {
    exists i :: 0 <= i < |puts| && puts[i].state == s
  }

  predicate InRange(rate: real)
  {
    0.0564 <= rate <= 0.1476
  }

  predicate AllInRange(puts: seq<Entry>)
  {
    forall i :: 0 <= i < |puts| ==> InRange(puts[i].rate)
  }

  /** The table once SetMap has run: every entry put into an empty map. */
  function Rates(): (r: map<string, real>)
    ensures "Alaska" in r
    ensures "Illinois" in r && r["Illinois"] == 0.1476
  {
    PutAll(map[], Entries())
  }

  /** A name is in the result of the puts iff it was there before or some
      put names it; its value is that of the last put naming it, else the
      old one. */
  lemma {:induction false} PutAllAt(m: map<string, real>, puts: seq<Entry>, s: string)
    ensures s in PutAll(m, puts) <==> s in m || LastRate(puts, s).Some?
    ensures s in PutAll(m, puts) ==>
      PutAll(m, puts)[s] == if LastRate(puts, s).Some? then LastRate(puts, s).value else m[s]
    decreases |puts|
  {
    if puts != [] {
      PutAllAt(m, puts[..|puts| - 1], s);
    }
  }

  /** There is a last put of s exactly when some put names s. */
  lemma {:induction false} LastRateListed(puts: seq<Entry>, s: string)
    ensures LastRate(puts, s).Some? <==> Listed(puts, s)
    decreases |puts|
  {
    if puts != [] {
      var init := puts[..|puts| - 1];
      LastRateListed(init, s);
      if Listed(init, s) {
        var i :| 0 <= i < |init| && init[i].state == s;
        assert puts[i].state == s;
      }
      if Listed(puts, s) && puts[|puts| - 1].state != s {
        var i :| 0 <= i < |puts| && puts[i].state == s;
        assert init[i].state == s;
      }
    }
  }

  /** The last put of a name carries one of the rates put. */
  lemma {:induction false} LastRateInRange(puts: seq<Entry>, s: string)
    requires AllInRange(puts)
    ensures LastRate(puts, s).Some? ==> InRange(LastRate(puts, s).value)
    decreases |puts|
  {
    if puts != [] && puts[|puts| - 1].state != s {
      var init := puts[..|puts| - 1];
      assert forall i :: 0 <= i < |init| ==> init[i] == puts[i];
      LastRateInRange(init, s);
    }
  }

  /** Repeating the same run of puts changes nothing. */
  lemma PutAllIdempotent(m: map<string, real>, puts: seq<Entry>)
    ensures PutAll(PutAll(m, puts), puts) == PutAll(m, puts)
  {
    var once := PutAll(m, puts);
    var twice := PutAll(once, puts);
    forall s
      ensures s in twice <==> s in once
      ensures s in twice ==> twice[s] == once[s]
    {
      PutAllAt(once, puts, s);
      PutAllAt(m, puts, s);
    }
  }

  lemma EntriesInRange()
    ensures AllInRange(Entries())
  {
    assert AllInRange(EntriesPart1());
    assert AllInRange(EntriesPart2());
    assert AllInRange(EntriesPart3());
    assert AllInRange(EntriesPart4());
    ConcatInRange(EntriesPart1(), EntriesPart2());
    ConcatInRange(EntriesPart1() + EntriesPart2(), EntriesPart3());
    ConcatInRange(EntriesPart1() + EntriesPart2() + EntriesPart3(), EntriesPart4());
  }

  lemma ConcatInRange(a: seq<Entry>, b: seq<Entry>)
    requires AllInRange(a) && AllInRange(b)
    ensures AllInRange(a + b)
  {
    forall i | 0 <= i < |a + b| ensures InRange((a + b)[i].rate) {
      if i >= |a| { assert (a + b)[i] == b[i - |a|]; }
    }
  }

  /** The table holds exactly the listed names, each with the rate of its
      last put. */
  lemma RatesContents(s: string)
    ensures s in Rates() <==> Listed(Entries(), s)
    ensures s in Rates() ==> LastRate(Entries(), s).Some? && Rates()[s] == LastRate(Entries(), s).value
  {
    PutAllAt(map[], Entries(), s);
    LastRateListed(Entries(), s);
  }

  /** Every rate in the table lies between Alaska's and Illinois's. */
  lemma RatesInRange(s: string)
    requires s in Rates()
    ensures InRange(Rates()[s])
  {
    RatesContents(s);
    EntriesInRange();
    LastRateInRange(Entries(), s);
  }

  /** The misspelled key is present; the correct spelling is not. */
  lemma TennesseeMisspelled()
    ensures "Tenenssee" in Rates()
    ensures "Tennessee" !in Rates()
  {
    assert Entries()[5].state == "Tenenssee";
    RatesContents("Tenenssee");
    assert !Listed(EntriesPart1(), "Tennessee");
    assert !Listed(EntriesPart2(), "Tennessee");
    assert !Listed(EntriesPart3(), "Tennessee");
    assert !Listed(EntriesPart4(), "Tennessee");
    ConcatListed(EntriesPart1(), EntriesPart2(), "Tennessee");
    ConcatListed(EntriesPart1() + EntriesPart2(), EntriesPart3(), "Tennessee");
    ConcatListed(EntriesPart1() + EntriesPart2() + EntriesPart3(), EntriesPart4(), "Tennessee");
    RatesContents("Tennessee");
  }

  lemma ConcatListed(a: seq<Entry>, b: seq<Entry>, s: string)
    ensures Listed(a + b, s) ==> Listed(a, s) || Listed(b, s)
  {
    if Listed(a + b, s) {
      var i :| 0 <= i < |a + b| && (a + b)[i].state == s;
      if i < |a| { assert a[i].state == s; } else { assert b[i - |a|].state == s; }
    }
  }

  /** The state tax deduction of a filer of the given income in the given
      state, looked up in the filled table; None for a name the table does
      not hold, where the source unboxes a null rate and fails. */
  function Deduction(state: string, income: real): (r: Option<real>)
    ensures r.Some? <==> state in Rates()
    ensures r.Some? ==> r.value == income * Rates()[state]
    ensures r.Some? && income >= 0.0 ==> 0.0564 * income <= r.value <= 0.1476 * income
  {
    if state in Rates() then
      RatesInRange(state);
      ScaleBetween(income, Rates()[state], 0.0564, 0.1476);
      Some(income * Rates()[state])
    else
      None
  }

  lemma ScaleBetween(x: real, rate: real, lo: real, hi: real)
    requires lo <= rate <= hi
    ensures x >= 0.0 ==> lo * x <= rate * x <= hi * x
  {
  }

  /** The process-wide table. Its one field is the static map of the
      source; the only thing that ever writes it is SetMap, so it is either
      still empty or holds exactly Rates(). */
  class StateTaxTable {
    var stateTaxRates: map<string, real>

    ghost predicate Valid()
      reads this
    {
      stateTaxRates == map[] || stateTaxRates == Rates()
    }

    /** The table as the static initialiser leaves it: empty. */
    constructor ()
      ensures Valid() && stateTaxRates == map[]
    {
      stateTaxRates := map[];
    }

    /** Performs the 51 puts. Each put of an already filled table writes
        the value it already holds, so a second call changes nothing. */
    method SetMap()
      requires Valid()
      modifies this
      ensures stateTaxRates == PutAll(old(stateTaxRates), Entries())
      ensures Valid() && stateTaxRates == Rates()
      ensures old(stateTaxRates) == Rates() ==> stateTaxRates == old(stateTaxRates)
    {
      stateTaxRates := PutAll(stateTaxRates, Entries());
      PutAllIdempotent(map[], Entries());
    }

    /** Refills the table, then multiplies the income by the state's rate;
        None where the state is not a key. */
    method StateTaxDeduction(state: string, income: real) returns (r: Option<real>)
      requires Valid()
      modifies this
      ensures Valid() && stateTaxRates == Rates()
      ensures r == Deduction(state, income)
    {
      SetMap();
      r := Deduction(state, income);
    }
  }
}
