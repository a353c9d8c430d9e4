/**
 * The company list of src/_workflows/businessEnrichment/companiesFile.ts:
 * records of a Brazilian company register turned into the companies the
 * enrichment workflow searches for.
 */
module CompaniesFile {
  import opened Wrappers
  import opened Strings

  /** One record of `companies.json`, every field a string. */
  datatype RawCompany = RawCompany(
    cnpj: string, matriz: string, razaoSocial: string, fantasia: string, abertura: string,
    cnae: string, descCnae: string, endereco: string, bairro: string, cep: string,
    cidade: string, regiao: string, uf: string, ddd: string, telefone: string,
    celular: string, email: string, capitalSocial: string, simples: string, mei: string,
    lucroReal: string, lucroPresumido: string, porte: string)

  datatype Company = Company(name: string, city: string, state: string, country: string,
                             address: string, cnae: string, porte: string)

  const Country := "Brazil"

  /** The five address parts of a record, in the order the address lists them. */
  function AddressParts(c: RawCompany): seq<string>
  {
    [c.endereco, c.bairro, c.cep, c.cidade, c.uf]
  }

  /** `${ENDERECO}, ${BAIRRO}, ${CEP}, ${CIDADE}, ${UF}`: the parts joined with ", ". */
  function AddressOf(c: RawCompany): (r: string)
    ensures r == c.endereco + ", " + c.bairro + ", " + c.cep + ", " + c.cidade + ", " + c.uf
  {
    var ps := AddressParts(c);
    assert Join(ps[4..], ", ") == c.uf;
    assert Join(ps[3..], ", ") == c.cidade + ", " + c.uf;
    assert Join(ps[2..], ", ") == c.cep + ", " + c.cidade + ", " + c.uf;
    assert Join(ps[1..], ", ") == c.bairro + ", " + c.cep + ", " + c.cidade + ", " + c.uf;
    Join(ps, ", ")
  }

  /** The map callback of `transformCompanyData`. */
  function Transform(c: RawCompany): (r: Company)
    ensures r.name == (if c.fantasia != "" then c.fantasia else c.razaoSocial)
    ensures r.name != "" <==> c.fantasia != "" || c.razaoSocial != ""
    ensures r.city == c.cidade && r.state == c.uf && r.cnae == c.descCnae && r.porte == c.porte
    ensures r.country == Country
  {
    Company(if c.fantasia != "" then c.fantasia else c.razaoSocial, c.cidade, c.uf, Country,
            AddressOf(c), c.descCnae, c.porte)
  }

  /** `transformCompanyData`: one company per record, in the same order. */
  function TransformCompanyData(companies: seq<RawCompany>): (r: seq<Company>)
    ensures |r| == |companies|
    ensures forall i | 0 <= i < |r| :: r[i] == Transform(companies[i])
  {
    if companies == [] then []
    else [Transform(companies[0])] + TransformCompanyData(companies[1..])
  }

  /**
   * `loadAndTransformCompanies`. The file read is a parameter: `content` is
   * `None` when the file does not exist, and `parse` is `JSON.parse` applied
   * to the text, failing with the parser's message.
   */
  function LoadAndTransformCompanies(path: string, content: Option<string>,
                                     parse: string -> Result<seq<RawCompany>>): (r: Result<seq<Company>>)
    ensures content.None? ==> r == Err("Companies file not found at: " + path)
    ensures content.Some? && parse(content.value).Err? ==> r == Err(parse(content.value).error)
    ensures content.Some? && parse(content.value).Ok? ==> r == Ok(TransformCompanyData(parse(content.value).value))
  {
    match content
    case None => Err("Companies file not found at: " + path)
    case Some(text) =>
      match parse(text)
      case Err(e) => Err(e)
      case Ok(companies) => Ok(TransformCompanyData(companies))
  }

  // ---------------------------------------------------------------- properties

  /** Splitting a text at its first comma. */
  lemma SplitAtComma(a: string, rest: string)
    requires ',' !in a
    ensures Split(a + "," + rest, ',') == [a] + Split(rest, ',')
  {
    var s := a + "," + rest;
    assert s[|a|] == ',';
    assert s[..|a|] == a;
    assert s[|a| + 1..] == rest;
  }

  /** Each of `parts` after the one space that the separator ", " adds. */
  function Spaced(parts: seq<string>): (r: seq<string>)
    ensures |r| == |parts| && forall i | 0 <= i < |r| :: r[i] == " " + parts[i]
  {
    if parts == [] then [] else [" " + parts[0]] + Spaced(parts[1..])
  }

  /**
   * Parts without commas joined with ", " split on commas into the same parts,
   * each after the first with the one space the separator adds (`lead` is
   * text glued to the front of the first part).
   */
  lemma {:induction false} SplitJoined(lead: string, parts: seq<string>)
    requires parts != [] && ',' !in lead && forall i | 0 <= i < |parts| :: ',' !in parts[i]
    ensures Split(lead + Join(parts, ", "), ',') == [lead + parts[0]] + Spaced(parts[1..])
    decreases |parts|
  {
    var first := lead + parts[0];
    assert ',' !in first;
    if |parts| == 1 {
      assert lead + Join(parts, ", ") == first;
    } else {
      var rest := Join(parts[1..], ", ");
      calc {
        lead + Join(parts, ", ");
        lead + (parts[0] + ", " + rest);
        { assert ", " == "," + " "; }
        first + "," + (" " + rest);
      }
      SplitAtComma(first, " " + rest);
      SplitJoined(" ", parts[1..]);
      assert Spaced(parts[1..]) == [" " + parts[1]] + Spaced(parts[2..]);
      assert parts[1..][1..] == parts[2..];
    }
  }

  /** Five parts without commas, joined with ", ", split back on commas. */
  lemma SplitFive(parts: seq<string>)
    requires |parts| == 5 && forall i | 0 <= i < 5 :: ',' !in parts[i]
    ensures Split(Join(parts, ", "), ',') == [parts[0]] + Spaced(parts[1..])
  {
    var joined := Join(parts, ", ");
    SplitJoined("", parts);
    assert "" + joined == joined;
    assert "" + parts[0] == parts[0];
  }

  /** The five parts of an address, each after the first with its space. */
  lemma AddressPieces(c: RawCompany)
    ensures [AddressParts(c)[0]] + Spaced(AddressParts(c)[1..])
         == [c.endereco, " " + c.bairro, " " + c.cep, " " + c.cidade, " " + c.uf]
  {
    var parts := AddressParts(c);
    var r := Spaced(parts[1..]);
    assert r[0] == " " + c.bairro && r[1] == " " + c.cep && r[2] == " " + c.cidade && r[3] == " " + c.uf;
  }

  /**
   * The address keeps its five parts apart: when none of them holds a comma,
   * splitting the address on commas gives them back, each after the first
   * with the one space the separator adds.
   */
  lemma AddressSplitsIntoParts(c: RawCompany)
    requires ',' !in c.endereco && ',' !in c.bairro && ',' !in c.cep && ',' !in c.cidade && ',' !in c.uf
    ensures Split(Transform(c).address, ',') == [c.endereco, " " + c.bairro, " " + c.cep, " " + c.cidade, " " + c.uf]
  {
    var parts := AddressParts(c);
    assert forall i | 0 <= i < 5 :: ',' !in parts[i];
    SplitFive(parts);
    AddressPieces(c);
  }
}
