/** The month table of the listing scraper (`scrape_lands.py`): Ukrainian month
    names in the genitive, as the site renders posting dates, to two-digit month
    numbers. */
module Months {
  /** Ukrainian month names in the genitive, as the site renders them, to month numbers. */
  const MonthMapping: map<string, string> := map[
    "січня" := "01", "лютого" := "02", "березня" := "03", "квітня" := "04",
    "травня" := "05", "червня" := "06", "липня" := "07", "серпня" := "08",
    "вересня" := "09", "жовтня" := "10", "листопада" := "11", "грудня" := "12"]

  /** The twelve month numbers. */
  const MonthNumbers: set<string> := {"01", "02", "03", "04", "05", "06", "07", "08", "09", "10", "11", "12"}

  /** The month table has twelve distinct names. */
  lemma MonthNamesDistinct()
    ensures |MonthMapping.Keys| == 12
  {
  }

  /** The month numbers are exactly "01".."12"... */
  lemma MonthNumbersExact()
    ensures MonthMapping.Values == MonthNumbers
  {
    forall v | v in MonthMapping.Values ensures v in MonthNumbers {
      var k :| k in MonthMapping && MonthMapping[k] == v;
    }
    forall v | v in MonthNumbers ensures v in MonthMapping.Values {
      var k := if v == "01" then "січня" else if v == "02" then "лютого" else if v == "03" then "березня"
        else if v == "04" then "квітня" else if v == "05" then "травня" else if v == "06" then "червня"
        else if v == "07" then "липня" else if v == "08" then "серпня" else if v == "09" then "вересня"
        else if v == "10" then "жовтня" else if v == "11" then "листопада" else "грудня";
      assert MonthMapping[k] == v;
    }
  }

  /** ...and each is used by one month only. */
  lemma MonthNumbersInjective()
    ensures forall m1, m2 :: m1 in MonthMapping && m2 in MonthMapping && m1 != m2 ==> MonthMapping[m1] != MonthMapping[m2]
  {
  }

  /** Every month number is two decimal digits. */
  lemma MonthNumbersAreDigits()
    ensures forall v :: v in MonthNumbers ==> |v| == 2 && '0' <= v[0] <= '9' && '0' <= v[1] <= '9'
  {
  }
}
