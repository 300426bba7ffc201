/** src/features/dashboard/Dashboard.tsx: the branch dashboard. It greets the
    user by first name, shows the sales total, and lists the stock overview
    with a colour band per remaining quantity. */
module DashboardView {
  import opened Wrappers
  import opened DashboardStats

  /** The badge of a remaining quantity; Red carries the alert icon. */
  datatype Band = Red | Yellow | Blue

  /** `remaining <= 0 ? red : remaining < 5 ? yellow : blue`. */
  function BandOf(remaining: int): (b: Band)
    ensures b == Red <==> remaining <= 0
    ensures b == Yellow <==> 0 < remaining < 5
    ensures b == Blue <==> remaining >= 5
  {
    if remaining <= 0 then Red else if remaining < 5 then Yellow else Blue
  }

  /** The alert icon appears exactly on red badges. */
  predicate ShowsAlert(remaining: int)
  {
    remaining <= 0
  }

  /** The bands split the integers: every remaining quantity gets exactly one
      band, and the alert icon goes with red. */
  lemma BandsPartition(remaining: int)
    ensures ShowsAlert(remaining) <==> BandOf(remaining) == Red
    ensures !(remaining <= 0 && 0 < remaining < 5)
    ensures !(remaining <= 0 && remaining >= 5)
    ensures !(0 < remaining < 5 && remaining >= 5)
    ensures remaining <= 0 || 0 < remaining < 5 || remaining >= 5
    ensures BandOf(remaining) in {Red, Yellow, Blue}
  {
  }

  /** A product whose sales reached its declared stock shows red with the
      alert; one with five or more left shows blue. */
  lemma OverviewRowBand(row: OverviewRow)
    requires row.remaining == OrZero(row.initialStock) - row.sold
    ensures BandOf(row.remaining) == Red <==> row.sold >= OrZero(row.initialStock)
    ensures BandOf(row.remaining) == Blue <==> row.sold <= OrZero(row.initialStock) - 5
  {
  }

  /** `s.split(' ')[0]`: the text before the first space. */
  function FirstWord(s: string): (r: string)
    ensures |r| <= |s| && r == s[..|r|]
    ensures forall i :: 0 <= i < |r| ==> r[i] != ' '
    ensures |r| < |s| ==> s[|r|] == ' '
  {
    if s == [] || s[0] == ' ' then [] else [s[0]] + FirstWord(s[1..])
  }

  /** `profile?.full_name?.split(' ')[0] || 'Usuario'`. */
  function Greeting(fullName: Option<string>): (r: string)
    ensures r != "" && forall i :: 0 <= i < |r| ==> r[i] != ' '
    ensures fullName.None? ==> r == "Usuario"
  {
    if fullName.None? then "Usuario" else StrOr(FirstWord(fullName.value), "Usuario")
  }

  /** The greeting is the first name when the full name starts with one, and
      'Usuario' when the name is missing, empty or starts with a space. */
  lemma GreetingIsFirstName(first: string, rest: string)
    requires first != "" && forall i :: 0 <= i < |first| ==> first[i] != ' '
    ensures Greeting(Some(first + " " + rest)) == first
    ensures Greeting(Some(first)) == first
    ensures Greeting(Some(" " + rest)) == "Usuario" && Greeting(Some("")) == "Usuario"
  {
    FirstWordStops(first, " " + rest);
    FirstWordStops(first, "");
    assert first + "" == first;
  }

  lemma {:induction false} FirstWordStops(first: string, tail: string)
    requires forall i :: 0 <= i < |first| ==> first[i] != ' '
    requires tail == [] || tail[0] == ' '
    ensures FirstWord(first + tail) == first
  {
    if first != [] {
      assert (first + tail)[1..] == first[1..] + tail;
      FirstWordStops(first[1..], tail);
    }
  }

  /** "Ventas Totales": the sales total, or 0.00 while there are no stats. */
  function SalesShown(r: StatsResult): (v: real)
    ensures r.Ready? ==> v == r.stats.totalSales
    ensures !r.Ready? ==> v == 0.0
  {
    if r.Ready? then r.stats.totalSales else 0.0
  }

  /** The empty-inventory message: shown when there are no stats or the
      overview is empty. */
  predicate ShowsEmptyMessage(r: StatsResult)
  {
    !r.Ready? || r.stats.stockOverview == []
  }

  /** Since the overview has one row per branch_stock row of the branch, the
      message shows on a ready dashboard exactly when the branch has no stock
      rows, whatever it has sold. */
  lemma EmptyMessageIffNoStockRows(r: StatsResult, rows: seq<Schema.StockRow>)
    requires r.Ready? && |r.stats.stockOverview| == |rows|
    ensures ShowsEmptyMessage(r) <==> rows == []
  {
  }
}
