/**
  The list builders of the shop's form service: the selectable expiry months
  and years of a credit card. The current year is a parameter; the country
  and state lookups are network calls and are not part of this module.
 */
module ShopFormService {

  /**
    The months `startMonth`, `startMonth + 1`, ..., 12: empty past December,
    counting up by one, and holding every month from the start to December
    and no other.
   */
  function ExpiryMonths(startMonth: int): (r: seq<int>)
    ensures startMonth > 12 ==> r == []
    ensures startMonth <= 13 ==> |r| == 13 - startMonth
    ensures forall i :: 0 < i < |r| ==> r[i] == r[i - 1] + 1
    ensures forall m :: m in r <==> startMonth <= m <= 12
  {
    var months := seq(if startMonth <= 12 then 13 - startMonth else 0, i => startMonth + i);
    CountingUpHoldsRange(months, startMonth);
    months
  }

  /** The eleven years `currentYear` through `currentYear + 10`, counting up by one. */
  function ExpiryYears(currentYear: int): (r: seq<int>)
    ensures |r| == 11 && r[0] == currentYear && r[10] == currentYear + 10
    ensures forall i :: 0 < i < |r| ==> r[i] == r[i - 1] + 1
    ensures forall y :: y in r <==> currentYear <= y <= currentYear + 10
  {
    var years := seq(11, i => currentYear + i);
    CountingUpHoldsRange(years, currentYear);
    years
  }

  /** A list counting up by one from `start` holds exactly the numbers it spans. */
  lemma CountingUpHoldsRange(r: seq<int>, start: int)
    requires forall i :: 0 <= i < |r| ==> r[i] == start + i
    ensures forall m :: m in r <==> start <= m < start + |r|
  {
    forall m | start <= m < start + |r| ensures m in r {
      assert r[m - start] == m;
    }
  }

  /** `getCreditCardMonths`: counts from the start month up to 12. */
  method GetCreditCardMonths(startMonth: int) returns (data: seq<int>)
    ensures data == ExpiryMonths(startMonth)
  {
    data := [];
    var theMonth := startMonth;
    while theMonth <= 12
      invariant startMonth <= theMonth
      invariant startMonth <= 13 ==> theMonth <= 13
      invariant startMonth > 13 ==> theMonth == startMonth
      invariant |data| == theMonth - startMonth
      invariant forall i :: 0 <= i < |data| ==> data[i] == startMonth + i
    {
      data := data + [theMonth];
      theMonth := theMonth + 1;
    }
  }

  /** `getCreditCardYears`: counts from the current year to ten years on. */
  method GetCreditCardYears(currentYear: int) returns (data: seq<int>)
    ensures data == ExpiryYears(currentYear)
  {
    data := [];
    var startYear := currentYear;
    var endYear := startYear + 10;
    var theYear := startYear;
    while theYear <= endYear
      invariant startYear <= theYear <= endYear + 1
      invariant |data| == theYear - startYear
      invariant forall i :: 0 <= i < |data| ==> data[i] == startYear + i
    {
      data := data + [theYear];
      theYear := theYear + 1;
    }
  }
}
