/**
 * Country names to the codes the globe uses for highlighting
 * (src/utils/countryMapping.ts). The codes are ISO 3166-1 alpha-3,
 * except "EU" for the European Union.
 */
module CountryMapping {

  const CountryToIso: map<string, string> := map[
    "Afghanistan" := "AFG",
    "Argentina" := "ARG",
    "Australia" := "AUS",
    "Belgium" := "BEL",
    "Bolivia" := "BOL",
    "Brazil" := "BRA",
    "Burkina Faso" := "BFA",
    "Canada" := "CAN",
    "China" := "CHN",
    "Colombia" := "COL",
    "Egypt" := "EGY",
    "Estonia" := "EST",
    "European Union" := "EU",
    "Germany" := "DEU",
    "India" := "IND",
    "Iran" := "IRN",
    "Ireland" := "IRL",
    "Japan" := "JPN",
    "Malaysia" := "MYS",
    "Morocco" := "MAR",
    "Nepal" := "NPL",
    "Netherlands" := "NLD",
    "Norway" := "NOR",
    "Palestine" := "PSE",
    "Poland" := "POL",
    "Senegal" := "SEN",
    "South Korea" := "KOR",
    "South Sudan" := "SSD",
    "Sweden" := "SWE",
    "Switzerland" := "CHE",
    "United States" := "USA",
    "Vatican" := "VAT",
    "Venezuela" := "VEN"
  ]

  /** `countryToISO[name] || name`: the listed code when there is a truthy one, else the name itself. */
  function GetCountryIso(name: string): (code: string)
    ensures name in CountryToIso ==> code == CountryToIso[name]
    ensures name !in CountryToIso ==> code == name
  {
    if name in CountryToIso && CountryToIso[name] != "" then CountryToIso[name] else name
  }

  /** Every listed code is two or three characters long and every name at least four, so none is itself a listed name. */
  lemma CodesAreNotNames()
    ensures forall name <- CountryToIso :: 2 <= |CountryToIso[name]| <= 3
    ensures forall name <- CountryToIso :: 4 <= |name|
    ensures forall name <- CountryToIso :: CountryToIso[name] !in CountryToIso
  {
  }

  lemma GetCountryIsoIdempotent(name: string)
    ensures GetCountryIso(GetCountryIso(name)) == GetCountryIso(name)
  {
    CodesAreNotNames();
  }

  /** The table read backwards, from code to name: the witness that no code is listed twice. */
  ghost const IsoToCountry: map<string, string> := map[
    "AFG" := "Afghanistan",
    "ARG" := "Argentina",
    "AUS" := "Australia",
    "BEL" := "Belgium",
    "BOL" := "Bolivia",
    "BRA" := "Brazil",
    "BFA" := "Burkina Faso",
    "CAN" := "Canada",
    "CHN" := "China",
    "COL" := "Colombia",
    "EGY" := "Egypt",
    "EST" := "Estonia",
    "EU" := "European Union",
    "DEU" := "Germany",
    "IND" := "India",
    "IRN" := "Iran",
    "IRL" := "Ireland",
    "JPN" := "Japan",
    "MYS" := "Malaysia",
    "MAR" := "Morocco",
    "NPL" := "Nepal",
    "NLD" := "Netherlands",
    "NOR" := "Norway",
    "PSE" := "Palestine",
    "POL" := "Poland",
    "SEN" := "Senegal",
    "KOR" := "South Korea",
    "SSD" := "South Sudan",
    "SWE" := "Sweden",
    "CHE" := "Switzerland",
    "USA" := "United States",
    "VAT" := "Vatican",
    "VEN" := "Venezuela"
  ]

  // One pair of lemmas per row of the table: the row's code, and the reverse table's entry for it.

  lemma CodeOfAfghanistan() ensures CountryToIso["Afghanistan"] == "AFG" {}
  lemma NameOfAFG() ensures IsoToCountry["AFG"] == "Afghanistan" {}
  lemma CodeOfArgentina() ensures CountryToIso["Argentina"] == "ARG" {}
  lemma NameOfARG() ensures IsoToCountry["ARG"] == "Argentina" {}
  lemma CodeOfAustralia() ensures CountryToIso["Australia"] == "AUS" {}
  lemma NameOfAUS() ensures IsoToCountry["AUS"] == "Australia" {}
  lemma CodeOfBelgium() ensures CountryToIso["Belgium"] == "BEL" {}
  lemma NameOfBEL() ensures IsoToCountry["BEL"] == "Belgium" {}
  lemma CodeOfBolivia() ensures CountryToIso["Bolivia"] == "BOL" {}
  lemma NameOfBOL() ensures IsoToCountry["BOL"] == "Bolivia" {}
  lemma CodeOfBrazil() ensures CountryToIso["Brazil"] == "BRA" {}
  lemma NameOfBRA() ensures IsoToCountry["BRA"] == "Brazil" {}
  lemma CodeOfBurkinaFaso() ensures CountryToIso["Burkina Faso"] == "BFA" {}
  lemma NameOfBFA() ensures IsoToCountry["BFA"] == "Burkina Faso" {}
  lemma CodeOfCanada() ensures CountryToIso["Canada"] == "CAN" {}
  lemma NameOfCAN() ensures IsoToCountry["CAN"] == "Canada" {}
  lemma CodeOfChina() ensures CountryToIso["China"] == "CHN" {}
  lemma NameOfCHN() ensures IsoToCountry["CHN"] == "China" {}
  lemma CodeOfColombia() ensures CountryToIso["Colombia"] == "COL" {}
  lemma NameOfCOL() ensures IsoToCountry["COL"] == "Colombia" {}
  lemma CodeOfEgypt() ensures CountryToIso["Egypt"] == "EGY" {}
  lemma NameOfEGY() ensures IsoToCountry["EGY"] == "Egypt" {}
  lemma CodeOfEstonia() ensures CountryToIso["Estonia"] == "EST" {}
  lemma NameOfEST() ensures IsoToCountry["EST"] == "Estonia" {}
  lemma CodeOfEuropeanUnion() ensures CountryToIso["European Union"] == "EU" {}
  lemma NameOfEU() ensures IsoToCountry["EU"] == "European Union" {}
  lemma CodeOfGermany() ensures CountryToIso["Germany"] == "DEU" {}
  lemma NameOfDEU() ensures IsoToCountry["DEU"] == "Germany" {}
  lemma CodeOfIndia() ensures CountryToIso["India"] == "IND" {}
  lemma NameOfIND() ensures IsoToCountry["IND"] == "India" {}
  lemma CodeOfIran() ensures CountryToIso["Iran"] == "IRN" {}
  lemma NameOfIRN() ensures IsoToCountry["IRN"] == "Iran" {}
  lemma CodeOfIreland() ensures CountryToIso["Ireland"] == "IRL" {}
  lemma NameOfIRL() ensures IsoToCountry["IRL"] == "Ireland" {}
  lemma CodeOfJapan() ensures CountryToIso["Japan"] == "JPN" {}
  lemma NameOfJPN() ensures IsoToCountry["JPN"] == "Japan" {}
  lemma CodeOfMalaysia() ensures CountryToIso["Malaysia"] == "MYS" {}
  lemma NameOfMYS() ensures IsoToCountry["MYS"] == "Malaysia" {}
  lemma CodeOfMorocco() ensures CountryToIso["Morocco"] == "MAR" {}
  lemma NameOfMAR() ensures IsoToCountry["MAR"] == "Morocco" {}
  lemma CodeOfNepal() ensures CountryToIso["Nepal"] == "NPL" {}
  lemma NameOfNPL() ensures IsoToCountry["NPL"] == "Nepal" {}
  lemma CodeOfNetherlands() ensures CountryToIso["Netherlands"] == "NLD" {}
  lemma NameOfNLD() ensures IsoToCountry["NLD"] == "Netherlands" {}
  lemma CodeOfNorway() ensures CountryToIso["Norway"] == "NOR" {}
  lemma NameOfNOR() ensures IsoToCountry["NOR"] == "Norway" {}
  lemma CodeOfPalestine() ensures CountryToIso["Palestine"] == "PSE" {}
  lemma NameOfPSE() ensures IsoToCountry["PSE"] == "Palestine" {}
  lemma CodeOfPoland() ensures CountryToIso["Poland"] == "POL" {}
  lemma NameOfPOL() ensures IsoToCountry["POL"] == "Poland" {}
  lemma CodeOfSenegal() ensures CountryToIso["Senegal"] == "SEN" {}
  lemma NameOfSEN() ensures IsoToCountry["SEN"] == "Senegal" {}
  lemma CodeOfSouthKorea() ensures CountryToIso["South Korea"] == "KOR" {}
  lemma NameOfKOR() ensures IsoToCountry["KOR"] == "South Korea" {}
  lemma CodeOfSouthSudan() ensures CountryToIso["South Sudan"] == "SSD" {}
  lemma NameOfSSD() ensures IsoToCountry["SSD"] == "South Sudan" {}
  lemma CodeOfSweden() ensures CountryToIso["Sweden"] == "SWE" {}
  lemma NameOfSWE() ensures IsoToCountry["SWE"] == "Sweden" {}
  lemma CodeOfSwitzerland() ensures CountryToIso["Switzerland"] == "CHE" {}
  lemma NameOfCHE() ensures IsoToCountry["CHE"] == "Switzerland" {}
  lemma CodeOfUnitedStates() ensures CountryToIso["United States"] == "USA" {}
  lemma NameOfUSA() ensures IsoToCountry["USA"] == "United States" {}
  lemma CodeOfVatican() ensures CountryToIso["Vatican"] == "VAT" {}
  lemma NameOfVAT() ensures IsoToCountry["VAT"] == "Vatican" {}
  lemma CodeOfVenezuela() ensures CountryToIso["Venezuela"] == "VEN" {}
  lemma NameOfVEN() ensures IsoToCountry["VEN"] == "Venezuela" {}

  /** The reverse table inverts the rows from Afghanistan to Belgium. */
  lemma InvertsRows1(name: string)
    requires name in {"Afghanistan", "Argentina", "Australia", "Belgium"}
    ensures name in CountryToIso && CountryToIso[name] in IsoToCountry && IsoToCountry[CountryToIso[name]] == name
  {
    CodeOfAfghanistan(); NameOfAFG();
    CodeOfArgentina(); NameOfARG();
    CodeOfAustralia(); NameOfAUS();
    CodeOfBelgium(); NameOfBEL();
  }

  /** The reverse table inverts the rows from Bolivia to China. */
  lemma InvertsRows2(name: string)
    requires name in {"Bolivia", "Brazil", "Burkina Faso", "Canada", "China"}
    ensures name in CountryToIso && CountryToIso[name] in IsoToCountry && IsoToCountry[CountryToIso[name]] == name
  {
    CodeOfBolivia(); NameOfBOL();
    CodeOfBrazil(); NameOfBRA();
    CodeOfBurkinaFaso(); NameOfBFA();
    CodeOfCanada(); NameOfCAN();
    CodeOfChina(); NameOfCHN();
  }

  /** The reverse table inverts the rows from Colombia to India. */
  lemma InvertsRows3(name: string)
    requires name in {"Colombia", "Egypt", "Estonia", "European Union", "Germany", "India"}
    ensures name in CountryToIso && CountryToIso[name] in IsoToCountry && IsoToCountry[CountryToIso[name]] == name
  {
    CodeOfColombia(); NameOfCOL();
    CodeOfEgypt(); NameOfEGY();
    CodeOfEstonia(); NameOfEST();
    CodeOfEuropeanUnion(); NameOfEU();
    CodeOfGermany(); NameOfDEU();
    CodeOfIndia(); NameOfIND();
  }

  /** The reverse table inverts the rows from Iran to Nepal. */
  lemma InvertsRows4(name: string)
    requires name in {"Iran", "Ireland", "Japan", "Malaysia", "Morocco", "Nepal"}
    ensures name in CountryToIso && CountryToIso[name] in IsoToCountry && IsoToCountry[CountryToIso[name]] == name
  {
    CodeOfIran(); NameOfIRN();
    CodeOfIreland(); NameOfIRL();
    CodeOfJapan(); NameOfJPN();
    CodeOfMalaysia(); NameOfMYS();
    CodeOfMorocco(); NameOfMAR();
    CodeOfNepal(); NameOfNPL();
  }

  /** The reverse table inverts the rows from Netherlands to South Korea. */
  lemma InvertsRows5(name: string)
    requires name in {"Netherlands", "Norway", "Palestine", "Poland", "Senegal", "South Korea"}
    ensures name in CountryToIso && CountryToIso[name] in IsoToCountry && IsoToCountry[CountryToIso[name]] == name
  {
    CodeOfNetherlands(); NameOfNLD();
    CodeOfNorway(); NameOfNOR();
    CodeOfPalestine(); NameOfPSE();
    CodeOfPoland(); NameOfPOL();
    CodeOfSenegal(); NameOfSEN();
    CodeOfSouthKorea(); NameOfKOR();
  }

  /** The reverse table inverts the rows from South Sudan to Venezuela. */
  lemma InvertsRows6(name: string)
    requires name in {"South Sudan", "Sweden", "Switzerland", "United States", "Vatican", "Venezuela"}
    ensures name in CountryToIso && CountryToIso[name] in IsoToCountry && IsoToCountry[CountryToIso[name]] == name
  {
    CodeOfSouthSudan(); NameOfSSD();
    CodeOfSweden(); NameOfSWE();
    CodeOfSwitzerland(); NameOfCHE();
    CodeOfUnitedStates(); NameOfUSA();
    CodeOfVatican(); NameOfVAT();
    CodeOfVenezuela(); NameOfVEN();
  }

  /** Reading a name's code back through the reverse table gives the name. */
  lemma IsoToCountryInverts()
    ensures forall name <- CountryToIso ::
      CountryToIso[name] in IsoToCountry && IsoToCountry[CountryToIso[name]] == name
  {
    forall name <- CountryToIso
      ensures CountryToIso[name] in IsoToCountry && IsoToCountry[CountryToIso[name]] == name
    {
      if name in {"Afghanistan", "Argentina", "Australia", "Belgium"} {
        InvertsRows1(name);
      } else if name in {"Bolivia", "Brazil", "Burkina Faso", "Canada", "China"} {
        InvertsRows2(name);
      } else if name in {"Colombia", "Egypt", "Estonia", "European Union", "Germany", "India"} {
        InvertsRows3(name);
      } else if name in {"Iran", "Ireland", "Japan", "Malaysia", "Morocco", "Nepal"} {
        InvertsRows4(name);
      } else if name in {"Netherlands", "Norway", "Palestine", "Poland", "Senegal", "South Korea"} {
        InvertsRows5(name);
      } else {
        InvertsRows6(name);
      }
    }
  }

  /** Distinct names get distinct codes. */
  lemma CodesAreDistinct(a: string, b: string)
    requires a in CountryToIso && b in CountryToIso && a != b
    ensures CountryToIso[a] != CountryToIso[b]
  {
    IsoToCountryInverts();
  }

  lemma KnownCodes()
    ensures GetCountryIso("Netherlands") == "NLD"
    ensures GetCountryIso("European Union") == "EU"
    ensures GetCountryIso("Palestine") == "PSE"
    ensures GetCountryIso("Antarctica") == "Antarctica"
  {
    CodeOfNetherlands();
    CodeOfEuropeanUnion();
    CodeOfPalestine();
  }
}
