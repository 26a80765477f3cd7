/**
 * Country, currency and tax tables: the country is read off the browser
 * locale, the currency and the tax rate are looked up by country code.
 * Tax rates are whole percentages.
 */
module PriceUtils {
  import opened Common

  /** The two locale properties a browser may expose. */
  datatype Navigator = Navigator(language: Option<string>, userLanguage: Option<string>)

  /** `navigator.language || navigator.userLanguage || 'en-US'`. */
  function LocaleOf(nav: Navigator): (locale: string)
    ensures locale != ""
  {
    OrElse(nav.language, OrElse(nav.userLanguage, "en-US"))
  }

  /** The second '-'-separated part of the locale upper-cased, or "US" when it is missing or empty. */
  function CountryFromLocale(locale: string): (country: string)
    ensures |country| >= 1
    ensures forall i :: 0 <= i < |country| ==> !IsLower(country[i])
  {
    var parts := Split(locale, '-');
    Upper(if |parts| > 1 && parts[1] != "" then parts[1] else "US")
  }

  /** `detectCountryFromLocale`: without a `navigator` the lookup throws and the answer is "US". */
  function DetectCountry(nav: Option<Navigator>): (country: string)
    ensures nav.None? ==> country == "US"
    ensures |country| >= 1 && forall i :: 0 <= i < |country| ==> !IsLower(country[i])
  {
    if nav.None? then "US" else CountryFromLocale(LocaleOf(nav.value))
  }

  const CurrencyTable: map<string, string> := map[
    "US" := "USD", "IN" := "INR", "GB" := "GBP", "EU" := "EUR", "DE" := "EUR", "FR" := "EUR", "CA" := "CAD"]

  /** `currencyForCountry`: the table entry, USD for any other code. */
  function CurrencyFor(country: string): (currency: string)
    ensures country in CurrencyTable ==> currency == CurrencyTable[country]
    ensures country !in CurrencyTable ==> currency == "USD"
    ensures currency in {"USD", "INR", "GBP", "EUR", "CAD"}
  {
    if country in CurrencyTable then CurrencyTable[country] else "USD"
  }

  /** The member states that `taxRateForCountry` charges VAT for. */
  const EuMembers: seq<string> := ["AT", "BE", "BG", "HR", "CY", "CZ", "DK", "EE", "FI", "FR", "DE", "GR", "HU", "IE",
                                  "IT", "LV", "LT", "LU", "MT", "NL", "PL", "PT", "RO", "SK", "SI", "ES", "SE"]

  /** `taxRateForCountry`, in percent: 18 for India, 20 for the member states, otherwise 0. */
  function TaxRatePercent(country: string): (rate: int)
    ensures rate in {0, 18, 20}
    ensures rate == 18 <==> country == "IN"
    ensures rate == 20 <==> country in EuMembers
  {
    if country == "IN" then 18 else if country in EuMembers then 20 else 0
  }

  /** The region part of a locale such as "en-in" or "zh-hant-tw" is the country, upper-cased. */
  lemma CountryIsSecondPart(lang: string, region: string, tail: string)
    requires '-' !in lang && '-' !in region && region != ""
    ensures CountryFromLocale(lang + "-" + region) == Upper(region)
    ensures CountryFromLocale(lang + "-" + region + "-" + tail) == Upper(region)
  {
    SplitFree(region, '-');
    SplitField(lang, region, '-');
    SplitField(region, tail, '-');
    SplitField(lang, region + "-" + tail, '-');
    assert lang + "-" + region + "-" + tail == lang + "-" + (region + "-" + tail);
  }

  /** A locale without '-' (or with nothing after it) falls back to "US". */
  lemma NoRegionIsUS(lang: string)
    requires '-' !in lang
    ensures CountryFromLocale(lang) == "US"
    ensures CountryFromLocale(lang + "-") == "US"
  {
    SplitFree(lang, '-');
    SplitField(lang, "", '-');
    assert lang + "-" + "" == lang + "-";
  }

  /** "EU" has a currency (EUR) but no VAT: it is not one of the member codes. */
  lemma EuAliasUntaxed()
    ensures CurrencyFor("EU") == "EUR"
    ensures TaxRatePercent("EU") == 0
  {
  }

  /** The tables are keyed by upper-case codes: a code with a lower-case letter gets USD and no tax. */
  lemma LowerCaseCodeUnknown(country: string, i: nat)
    requires i < |country| && IsLower(country[i])
    ensures CurrencyFor(country) == "USD"
    ensures TaxRatePercent(country) == 0
  {
    forall k | k in CurrencyTable
      ensures k != country
    {
      assert i >= |k| || !IsLower(k[i]);
    }
    forall k | 0 <= k < |EuMembers|
      ensures EuMembers[k] != country
    {
      assert i >= |EuMembers[k]| || !IsLower(EuMembers[k][i]);
    }
  }

  /** The detected country is always upper-case, so an Indian locale written in lower case still gets INR and 18%. */
  lemma IndianLocale()
    ensures CurrencyFor(CountryFromLocale("en-in")) == "INR"
    ensures TaxRatePercent(CountryFromLocale("en-in")) == 18
  {
    CountryIsSecondPart("en", "in", "");
    assert "en" + "-" + "in" == "en-in";
    assert Upper("in") == "IN";
  }
}
