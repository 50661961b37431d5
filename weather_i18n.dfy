/**
 * Locale selection and labels of the weather plugin.
 *
 * The handler object of the source sets its three fields once, when it is built, and never
 * changes them; it is modelled as the value `I18n`, built by `NewI18n`. Every operation is a
 * total function over that value. Python dictionaries iterate in insertion order, so the two
 * locale tables are association lists in declaration order.
 */
module WeatherI18n {
  import opened Common

  /** The en_US table. */
  const EnUs: map<string, string> := map[
    "feels_like" := "Feels Like",
    "sunrise" := "Sunrise",
    "sunset" := "Sunset",
    "humidity" := "Humidity",
    "wind" := "Wind",
    "rain" := "Rain",
    "pressure" := "Pressure",
    "uv_index" := "UV Index",
    "visibility" := "Visibility",
    "air_quality" := "Air Quality",
    "last_refresh" := "Last refresh",
    "moon_phase" := "Moon Phase",
    "good" := "Good",
    "fair" := "Fair",
    "moderate" := "Moderate",
    "poor" := "Poor",
    "very_poor" := "Very Poor",
    "ext_poor" := "Ext Poor"
  ]

  /** The es_ES table. */
  const EsEs: map<string, string> := map[
    "feels_like" := "Sensación térmica",
    "sunrise" := "Amanecer",
    "sunset" := "Atardecer",
    "humidity" := "Humedad",
    "wind" := "Viento",
    "rain" := "Lluvia",
    "pressure" := "Presión",
    "uv_index" := "Índice UV",
    "visibility" := "Visibilidad",
    "air_quality" := "Calidad del aire",
    "last_refresh" := "Última actualización",
    "moon_phase" := "Fase lunar",
    "good" := "Buena",
    "fair" := "Aceptable",
    "moderate" := "Moderada",
    "poor" := "Mala",
    "very_poor" := "Muy Mala",
    "ext_poor" := "Extremadamente Mala"
  ]

  /** The ca_ES table. */
  const CaEs: map<string, string> := map[
    "feels_like" := "Sensació tèrmica",
    "sunrise" := "Alba",
    "sunset" := "Posta de sol",
    "humidity" := "Humitat",
    "wind" := "Vent",
    "rain" := "Pluja",
    "pressure" := "Pressió",
    "uv_index" := "Índex UV",
    "visibility" := "Visibilitat",
    "air_quality" := "Qualitat de l'aire",
    "last_refresh" := "Última actualització",
    "moon_phase" := "Fase lunar",
    "good" := "Bona",
    "fair" := "Acceptable",
    "moderate" := "Moderada",
    "poor" := "Dolenta",
    "very_poor" := "Molt Dolenta",
    "ext_poor" := "Extremadament Dolenta"
  ]

  /** The fr_FR table. */
  const FrFr: map<string, string> := map[
    "feels_like" := "Ressenti",
    "sunrise" := "Lever du soleil",
    "sunset" := "Coucher du soleil",
    "humidity" := "Humidité",
    "wind" := "Vent",
    "rain" := "Pluie",
    "pressure" := "Pression",
    "uv_index" := "Indice UV",
    "visibility" := "Visibilité",
    "air_quality" := "Qualité de l'air",
    "last_refresh" := "Dernière mise à jour",
    "moon_phase" := "Phase lunaire",
    "good" := "Bonne",
    "fair" := "Moyenne",
    "moderate" := "Modérée",
    "poor" := "Mauvaise",
    "very_poor" := "Très Mauvaise",
    "ext_poor" := "Extrêmement Mauvaise"
  ]

  /** The de_DE table. */
  const DeDe: map<string, string> := map[
    "feels_like" := "Gefühlt",
    "sunrise" := "Sonnenaufgang",
    "sunset" := "Sonnenuntergang",
    "humidity" := "Feuchtigkeit",
    "wind" := "Wind",
    "rain" := "Regen",
    "pressure" := "Luftdruck",
    "uv_index" := "UV-Index",
    "visibility" := "Sichtweite",
    "air_quality" := "Luftqualität",
    "last_refresh" := "Letzte Aktualisierung",
    "moon_phase" := "Mondphase",
    "good" := "Gut",
    "fair" := "Mäßig",
    "moderate" := "Durchschnittlich",
    "poor" := "Schlecht",
    "very_poor" := "Sehr Schlecht",
    "ext_poor" := "Extrem Schlecht"
  ]

  /** The it_IT table. */
  const ItIt: map<string, string> := map[
    "feels_like" := "Percepita",
    "sunrise" := "Alba",
    "sunset" := "Tramonto",
    "humidity" := "Umidità",
    "wind" := "Vento",
    "rain" := "Pioggia",
    "pressure" := "Pressione",
    "uv_index" := "Indice UV",
    "visibility" := "Visibilità",
    "air_quality" := "Qualità dell'aria",
    "last_refresh" := "Ultimo aggiornamento",
    "moon_phase" := "Fase lunare",
    "good" := "Buona",
    "fair" := "Discreta",
    "moderate" := "Moderata",
    "poor" := "Scarsa",
    "very_poor" := "Pessima",
    "ext_poor" := "Estremamente Pessima"
  ]

  /** The pt_PT table. */
  const PtPt: map<string, string> := map[
    "feels_like" := "Sensação",
    "sunrise" := "Nascer do sol",
    "sunset" := "Pôr do sol",
    "humidity" := "Humidade",
    "wind" := "Vento",
    "rain" := "Chuva",
    "pressure" := "Pressão",
    "uv_index" := "Índice UV",
    "visibility" := "Visibilidade",
    "air_quality" := "Qualidade do ar",
    "last_refresh" := "Última atualização",
    "moon_phase" := "Fase lunar",
    "good" := "Boa",
    "fair" := "Razoável",
    "moderate" := "Moderada",
    "poor" := "Má",
    "very_poor" := "Muito Má",
    "ext_poor" := "Extremamente Má"
  ]

  /** The keys that every translation table declares. */
  const TranslationKeys: set<string> := {
    "feels_like", "sunrise", "sunset", "humidity", "wind", "rain", "pressure", "uv_index",
    "visibility", "air_quality", "last_refresh", "moon_phase",
    "good", "fair", "moderate", "poor", "very_poor", "ext_poor"
  }

  /** TRANSLATIONS, in declaration order. */
  const Translations: seq<(string, map<string, string>)> := [
    ("en_US", EnUs), ("es_ES", EsEs), ("ca_ES", CaEs), ("fr_FR", FrFr),
    ("de_DE", DeDe), ("it_IT", ItIt), ("pt_PT", PtPt)
  ]

  /** DATE_FORMATS, in declaration order: (current-date pattern, short-day pattern). */
  const DateFormats: seq<(string, (string, string))> := [
    ("en_US", ("%A, %B %d", "%a")),
    ("en_GB", ("%A, %d %B", "%a")),
    ("es_ES", ("%A %d de %B", "%a")),
    ("ca_ES", ("%A %d de %B", "%a")),
    ("fr_FR", ("%A %d %B", "%a")),
    ("de_DE", ("%A, %d. %B", "%a")),
    ("it_IT", ("%A %d %B", "%a")),
    ("pt_PT", ("%A, %d de %B", "%a"))
  ]

  // ---------------------------------------------------------------------------------------------
  // Detecting the system locale

  /** What asking the C library for the LC_TIME locale gives: an exception, or a language name. */
  datatype LocaleQuery = QueryRaised | QueryAnswered(language: Option<string>)

  /** The detected locale: the LC_TIME language name when there is a non-empty one, else en_US. */
  function SystemLocale(query: LocaleQuery): (code: string)
    ensures code != ""
    ensures query.QueryAnswered? && query.language.Some? && query.language.value != ""
            ==> code == query.language.value
    ensures query.QueryRaised? || query.language.None? || query.language.value == ""
            ==> code == "en_US"
  {
    match query
    case QueryAnswered(Some(name)) => if name != "" then name else "en_US"
    case _ => "en_US"
  }

  // ---------------------------------------------------------------------------------------------
  // Choosing a table: exact locale, then language prefix, then en_US

  /** The language part of a locale: the text before its first '_' (all of it when there is none). */
  function LangPart(locale: string): (lang: string)
    ensures lang <= locale
    ensures '_' !in lang
    ensures |lang| < |locale| ==> locale[|lang|] == '_'
  {
    if locale == [] || locale[0] == '_' then []
    else [locale[0]] + LangPart(locale[1..])
  }

  ghost predicate DeclaresLocale<V>(table: seq<(string, V)>, key: string) {
    exists j :: 0 <= j < |table| && table[j].0 == key
  }

  ghost predicate SomeKeyStartsWith<V>(table: seq<(string, V)>, lang: string) {
    exists j :: 0 <= j < |table| && lang <= table[j].0
  }

  /** The first entry at index `from` or later whose locale key satisfies `p`. */
  function FirstMatch<V>(table: seq<(string, V)>, p: string -> bool, from: nat): (r: Option<nat>)
    decreases |table| - from
    ensures r.Some? ==> from <= r.value < |table| && p(table[r.value].0)
    ensures r.Some? ==> forall j :: from <= j < r.value ==> !p(table[j].0)
    ensures r.None? ==> forall j :: from <= j < |table| ==> !p(table[j].0)
  {
    if from >= |table| then None
    else if p(table[from].0) then Some(from)
    else FirstMatch(table, p, from + 1)
  }

  /**
   * The entry the three-step lookup picks for `locale`: the entry whose key is `locale`; otherwise
   * the first entry, in declaration order, whose key starts with the language part of `locale`;
   * otherwise en_US.
   */
  function SelectEntry<V>(table: seq<(string, V)>, locale: string): (i: nat)
    requires DeclaresLocale(table, "en_US")
    ensures i < |table|
    ensures DeclaresLocale(table, locale) ==> table[i].0 == locale
    ensures !DeclaresLocale(table, locale) && SomeKeyStartsWith(table, LangPart(locale)) ==>
              LangPart(locale) <= table[i].0 &&
              forall j :: 0 <= j < i ==> !(LangPart(locale) <= table[j].0)
    ensures !DeclaresLocale(table, locale) && !SomeKeyStartsWith(table, LangPart(locale)) ==>
              table[i].0 == "en_US"
  {
    match FirstMatch(table, key => key == locale, 0)
    case Some(i) => i
    case None =>
      var lang := LangPart(locale);
      match FirstMatch(table, key => lang <= key, 0)
      case Some(i) => i
      case None =>
        var fallback := FirstMatch(table, key => key == "en_US", 0);
        assert fallback.Some?;
        fallback.value
  }

  lemma DeclaredTables()
    ensures DeclaresLocale(Translations, "en_US")
    ensures DeclaresLocale(DateFormats, "en_US")
  {
    assert Translations[0].0 == "en_US";
    assert DateFormats[0].0 == "en_US";
  }

  // ---------------------------------------------------------------------------------------------
  // The handler value

  /** The state the handler object fixes when it is built. */
  datatype I18n = I18n(localeCode: string, translations: map<string, string>, dateFormats: (string, string))

  /** A handler whose tables are ones the module declares, for a detected (non-empty) locale. */
  ghost predicate WellFormed(i18n: I18n) {
    && i18n.localeCode != ""
    && (exists k :: 0 <= k < |Translations| && i18n.translations == Translations[k].1)
    && (exists k :: 0 <= k < |DateFormats| && i18n.dateFormats == DateFormats[k].1)
  }

  /** Builds the handler: detects the locale, then picks both tables for it. */
  function NewI18n(query: LocaleQuery): (i18n: I18n)
    ensures WellFormed(i18n)
    ensures i18n.localeCode == SystemLocale(query)
    ensures DeclaresLocale(Translations, "en_US") && DeclaresLocale(DateFormats, "en_US")
    ensures i18n.translations == Translations[SelectEntry(Translations, i18n.localeCode)].1
    ensures i18n.dateFormats == DateFormats[SelectEntry(DateFormats, i18n.localeCode)].1
  {
    DeclaredTables();
    var code := SystemLocale(query);
    var t := SelectEntry(Translations, code);
    var d := SelectEntry(DateFormats, code);
    I18n(code, Translations[t].1, DateFormats[d].1)
  }

  // ---------------------------------------------------------------------------------------------
  // Translating a key

  predicate IsCased(c: char) {
    'a' <= c <= 'z' || 'A' <= c <= 'Z'
  }

  function ToUpper(c: char): char {
    if 'a' <= c <= 'z' then (c as int - 32) as char else c
  }

  function ToLower(c: char): char {
    if 'A' <= c <= 'Z' then (c as int + 32) as char else c
  }

  /** How title-casing treats `c`, given whether the character before it is a letter. */
  function TitleChar(c: char, afterLetter: bool): char {
    if !IsCased(c) then c else if afterLetter then ToLower(c) else ToUpper(c)
  }

  /** The key with every '_' replaced by a space. */
  function SpacedKey(key: string): (r: string)
    ensures |r| == |key|
    ensures forall i :: 0 <= i < |key| ==> r[i] == if key[i] == '_' then ' ' else key[i]
  {
    if key == [] then []
    else [if key[0] == '_' then ' ' else key[0]] + SpacedKey(key[1..])
  }

  /**
   * Title-casing, with `afterLetter` telling whether a letter precedes `s`: each letter that starts
   * a word (no letter before it) is upper-cased and every other letter lower-cased.
   */
  function TitleFrom(s: string, afterLetter: bool): (r: string)
    ensures |r| == |s|
    ensures forall i :: 0 <= i < |s| ==>
              r[i] == TitleChar(s[i], if i == 0 then afterLetter else IsCased(s[i - 1]))
  {
    if s == [] then []
    else [TitleChar(s[0], afterLetter)] + TitleFrom(s[1..], IsCased(s[0]))
  }

  /** The label shown for a key that the selected table lacks. */
  function FallbackLabel(key: string): (text: string)
    ensures |text| == |key|
    ensures forall i :: 0 <= i < |key| && key[i] == '_' ==> text[i] == ' '
    ensures forall i :: 0 <= i < |key| && IsCased(key[i]) ==>
              text[i] == if i > 0 && IsCased(key[i - 1]) then ToLower(key[i]) else ToUpper(key[i])
    ensures forall i :: 0 <= i < |key| && key[i] != '_' && !IsCased(key[i]) ==> text[i] == key[i]
  {
    var spaced := SpacedKey(key);
    assert forall i :: 0 <= i < |key| ==> (IsCased(spaced[i]) <==> IsCased(key[i]));
    var titled := TitleFrom(spaced, false);
    assert forall i :: 0 <= i < |key| && key[i] == '_' ==> titled[i] == TitleChar(' ', i > 0 && IsCased(spaced[i - 1]));
    assert forall i :: 0 <= i < |key| && key[i] != '_' && !IsCased(key[i]) ==> titled[i] == key[i] by {
      forall i | 0 <= i < |key| && key[i] != '_' && !IsCased(key[i]) ensures titled[i] == key[i] {
        assert spaced[i] == key[i];
        assert titled[i] == TitleChar(spaced[i], if i == 0 then false else IsCased(spaced[i - 1]));
      }
    }
    titled
  }

  /** The table entry for `key`, or the key title-cased when the table lacks it. */
  function Translate(i18n: I18n, key: string): (text: string)
    ensures key in i18n.translations ==> text == i18n.translations[key]
    ensures key !in i18n.translations ==> text == FallbackLabel(key)
  {
    if key in i18n.translations then i18n.translations[key] else FallbackLabel(key)
  }

  lemma WindSpeedFallsBackToTitle()
    ensures FallbackLabel("wind_speed") == "Wind Speed"
  {
    WindSpeedSpaced();
    WindSpeedTitled();
  }

  lemma WindSpeedSpaced()
    ensures SpacedKey("wind_speed") == "wind speed"
  {
    var spaced := SpacedKey("wind_speed");
    forall i | 0 <= i < 10 ensures spaced[i] == "wind speed"[i] {
      assert "wind_speed"[i] == '_' <==> i == 4;
    }
  }

  lemma WindSpeedTitled()
    ensures TitleFrom("wind speed", false) == "Wind Speed"
  {
    var titled := TitleFrom("wind speed", false);
    forall i | 0 <= i < 10 ensures titled[i] == "Wind Speed"[i] {
      assert ToUpper('w') == 'W' && ToUpper('s') == 'S';
    }
  }

  /** Every table of TRANSLATIONS declares exactly the same keys. */
  lemma AllTablesShareKeys()
    ensures forall k :: 0 <= k < |Translations| ==> Translations[k].1.Keys == TranslationKeys
  {
    forall k | 0 <= k < |Translations| ensures Translations[k].1.Keys == TranslationKeys {
      TableKeys(k);
    }
  }

  lemma TableKeys(k: nat)
    requires k < |Translations|
    ensures Translations[k].1.Keys == TranslationKeys
  {
    var tables := [EnUs, EsEs, CaEs, FrFr, DeDe, ItIt, PtPt];
    assert Translations[k].1 == tables[k];
    if k == 0 { EnUsKeys(); }
    else if k == 1 { EsEsKeys(); }
    else if k == 2 { CaEsKeys(); }
    else if k == 3 { FrFrKeys(); }
    else if k == 4 { DeDeKeys(); }
    else if k == 5 { ItItKeys(); }
    else { PtPtKeys(); }
  }

  lemma EnUsKeys() ensures EnUs.Keys == TranslationKeys {}
  lemma EsEsKeys() ensures EsEs.Keys == TranslationKeys {}
  lemma CaEsKeys() ensures CaEs.Keys == TranslationKeys {}
  lemma FrFrKeys() ensures FrFr.Keys == TranslationKeys {}
  lemma DeDeKeys() ensures DeDe.Keys == TranslationKeys {}
  lemma ItItKeys() ensures ItIt.Keys == TranslationKeys {}
  lemma PtPtKeys() ensures PtPt.Keys == TranslationKeys {}

  /** For a declared key, translating never falls back to the title, whichever table was chosen. */
  lemma DeclaredKeysNeverFallBack(i18n: I18n, key: string)
    ensures WellFormed(i18n) && key in TranslationKeys ==>
              key in i18n.translations && Translate(i18n, key) == i18n.translations[key]
  {
    if WellFormed(i18n) && key in TranslationKeys {
      AllTablesShareKeys();
      var k :| 0 <= k < |Translations| && i18n.translations == Translations[k].1;
    }
  }

  // ---------------------------------------------------------------------------------------------
  // Date patterns

  /** The pattern of the current-date text: element 0 of the selected date formats. */
  function CurrentDatePattern(i18n: I18n): (pattern: string)
    ensures WellFormed(i18n) ==> exists k :: 0 <= k < |DateFormats| && pattern == DateFormats[k].1.0
  {
    i18n.dateFormats.0
  }

  /** A built handler's current-date pattern is element 0 of the date formats selected for its locale. */
  lemma CurrentDatePatternOfLocale(query: LocaleQuery)
    ensures DeclaresLocale(DateFormats, "en_US")
    ensures CurrentDatePattern(NewI18n(query)) == DateFormats[SelectEntry(DateFormats, SystemLocale(query))].1.0
  {
    DeclaredTables();
  }

  /** The pattern of the short day name: element 1, the abbreviated weekday in every locale. */
  function ShortDayPattern(i18n: I18n): (pattern: string)
    ensures WellFormed(i18n) ==> pattern == "%a"
  {
    assert WellFormed(i18n) ==> i18n.dateFormats.1 == "%a" by {
      if WellFormed(i18n) {
        var k :| 0 <= k < |DateFormats| && i18n.dateFormats == DateFormats[k].1;
      }
    }
    i18n.dateFormats.1
  }

  /** en_GB has date patterns of its own but borrows the en_US translations by language prefix. */
  lemma BritishEnglishLookup()
    ensures var i18n := NewI18n(QueryAnswered(Some("en_GB")));
            i18n.translations == EnUs && CurrentDatePattern(i18n) == "%A, %d %B"
  {
    DeclaredTables();
    assert DateFormats[1].0 == "en_GB";
    var t := SelectEntry(Translations, "en_GB");
    assert LangPart("en_GB") == "en" by {
      assert "en_GB"[2] == '_';
    }
    assert "en" <= Translations[0].0;
    assert !DeclaresLocale(Translations, "en_GB") by {
      forall j | 0 <= j < |Translations| ensures Translations[j].0 != "en_GB" {
        assert Translations[j].0[3] != 'G';
      }
    }
    assert t == 0;
  }

  /** The pattern of the last-refresh text: a date part, one space, a time part. */
  function LastRefreshPattern(localeCode: string, timeFormat: string): (pattern: string)
    ensures |pattern| > 9 && pattern[8] == ' '
    ensures pattern[..8] == "%Y-%m-%d" <==> "en" <= localeCode
    ensures pattern[..8] == "%Y-%m-%d" || pattern[..8] == "%d/%m/%Y"
    ensures pattern[9..] == "%H:%M" <==> timeFormat == "24h"
    ensures pattern[9..] == "%H:%M" || pattern[9..] == "%I:%M %p"
  {
    var datePart := if "en" <= localeCode then "%Y-%m-%d" else "%d/%m/%Y";
    var timePart := if timeFormat == "24h" then "%H:%M" else "%I:%M %p";
    assert "%Y-%m-%d"[1] != "%d/%m/%Y"[1];
    assert |"%H:%M"| != |"%I:%M %p"|;
    datePart + " " + timePart
  }

  // ---------------------------------------------------------------------------------------------
  // Air quality

  /** The six band keys, from best to worst. */
  const AirQualityKeys: seq<string> := ["good", "fair", "moderate", "poor", "very_poor", "ext_poor"]

  /** The band of an AQI value: band b covers [20b, 20b + 20), the last band everything from 100 up. */
  function AirQualityBand(aqi: real): (band: nat)
    ensures band < |AirQualityKeys|
    ensures band > 0 ==> aqi >= 20.0 * band as real
    ensures band < |AirQualityKeys| - 1 ==> aqi < 20.0 * (band + 1) as real
  {
    if aqi < 20.0 then 0
    else if aqi < 40.0 then 1
    else if aqi < 60.0 then 2
    else if aqi < 80.0 then 3
    else if aqi < 100.0 then 4
    else 5
  }

  /** A higher AQI value never yields a better band. */
  lemma AirQualityBandMonotone(a: real, b: real)
    requires a <= b
    ensures AirQualityBand(a) <= AirQualityBand(b)
  {
  }

  /** The translated label of an AQI value; for a built handler it is always a table entry. */
  function AirQualityLabel(i18n: I18n, aqi: real): (text: string)
    ensures WellFormed(i18n) ==> text == i18n.translations[AirQualityKeys[AirQualityBand(aqi)]]
  {
    var key := AirQualityKeys[AirQualityBand(aqi)];
    DeclaredKeysNeverFallBack(i18n, key);
    Translate(i18n, key)
  }
}
