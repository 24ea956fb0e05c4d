/** The product-portfolio association resource: a relationship with no remote identifier of its
    own.  Its record holds portfolio_id, product_id, source_portfolio_id and the resource ID; the
    import key parser, the identity string, the force-new rules and the create/read/update/delete
    handlers are modelled here, against the catalog of association edges. */
module ProductAssociation {
  import opened Errors
  import opened Strings
  import opened Catalog

  const PortfolioPrefix := "port-"
  const ProductPrefix := "prod-"
  const ImportSeparator := '_'
  const IdentityPrefix := "product-portfolio-"
  const AcceptLanguage := "en"

  // ---------------------------------------------------------------------------------------
  // Import key:  PORTFOLIOID_PRODUCTID, e.g. port-ig54mbjew7qru_prod-z2koxglqdw4n4

  /** Why an import key was refused; the checks run in this order. */
  datatype KeyProblem = TooFewParts | InvalidPortfolioId | InvalidProductId

  function ProblemText(p: KeyProblem): string {
    match p
    case TooFewParts => "too few parts"
    case InvalidPortfolioId => "invalid portfolio ID"
    case InvalidProductId => "invalid product ID"
  }

  /** A refused key; the message quotes the key exactly as given, before lower-casing. */
  datatype ImportKeyError = ImportKeyError(key: string, problem: KeyProblem) {
    function Text(): string {
      "unexpected format of import string (\"" + key + "\"), expected PORTFOLIOID_PRODUCTID: "
        + ProblemText(problem)
    }
  }

  /** validateAssociateImportString: the lower-cased key split on '_' must give exactly two
      pieces, the first starting "port-" and the second "prod-". */
  function ValidateImportKey(key: string): (r: Result<seq<string>, ImportKeyError>)
    ensures r.Failure? ==> r.error.key == key
    ensures r.Success? ==>
      && |r.value| == 2
      && HasPrefix(r.value[0], PortfolioPrefix) && HasPrefix(r.value[1], ProductPrefix)
      && ImportSeparator !in r.value[0] && ImportSeparator !in r.value[1]
      && r.value[0] + [ImportSeparator] + r.value[1] == ToLower(key)
  {
    var parts := Split(ToLower(key), ImportSeparator);
    SplitJoin(ToLower(key), ImportSeparator);
    if |parts| != 2 then Failure(ImportKeyError(key, TooFewParts))
    else if !HasPrefix(parts[0], PortfolioPrefix) then Failure(ImportKeyError(key, InvalidPortfolioId))
    else if !HasPrefix(parts[1], ProductPrefix) then Failure(ImportKeyError(key, InvalidProductId))
    else
      JoinTwo(parts[0], parts[1], ImportSeparator);
      assert parts == [parts[0], parts[1]];
      Success(parts)
  }

  /** A lower-case key of the accepted shape, with its only underscore at index i. */
  ghost predicate WellFormedAt(k: string, i: int) {
    && 0 <= i < |k| && k[i] == ImportSeparator
    && ImportSeparator !in k[..i] && ImportSeparator !in k[i + 1..]
    && HasPrefix(k[..i], PortfolioPrefix) && HasPrefix(k[i + 1..], ProductPrefix)
  }

  /** A key is accepted exactly when its lower-cased form has the accepted shape, and then the
      parts are the lower-cased text before and after the underscore. */
  lemma ImportKeyAccepted(key: string)
    ensures ValidateImportKey(key).Success? <==> exists i :: WellFormedAt(ToLower(key), i)
    ensures forall i :: WellFormedAt(ToLower(key), i) ==>
      ValidateImportKey(key) == Success([ToLower(key)[..i], ToLower(key)[i + 1..]])
  {
    var k := ToLower(key);
    forall i | WellFormedAt(k, i)
      ensures ValidateImportKey(key) == Success([k[..i], k[i + 1..]])
    {
      SplitAtOnlySeparator(k, i, ImportSeparator);
    }
    var r := ValidateImportKey(key);
    if r.Success? {
      var i := |r.value[0]|;
      assert k[..i] == r.value[0];
      assert k[i + 1..] == r.value[1];
      assert WellFormedAt(k, i);
    }
  }

  /** "too few parts" is reported for every key whose underscore count is not one, including
      keys with more than two pieces. */
  lemma ImportKeyPartCount(key: string)
    ensures (ValidateImportKey(key).Failure? && ValidateImportKey(key).error.problem == TooFewParts)
      <==> Count(key, ImportSeparator) != 1
  {
    SplitLength(ToLower(key), ImportSeparator);
    LowerKeepsUnderscores(key);
  }

  /** With the piece count right, the portfolio piece is judged before the product piece: a
      first piece without "port-" is reported as an invalid portfolio ID whatever the second is. */
  lemma PortfolioCheckedFirst(key: string, i: int)
    requires 0 <= i < |ToLower(key)| && ToLower(key)[i] == ImportSeparator
    requires ImportSeparator !in ToLower(key)[..i] && ImportSeparator !in ToLower(key)[i + 1..]
    requires !HasPrefix(ToLower(key)[..i], PortfolioPrefix)
    ensures ValidateImportKey(key) == Failure(ImportKeyError(key, InvalidPortfolioId))
  {
    SplitAtOnlySeparator(ToLower(key), i, ImportSeparator);
  }

  /** The product piece is judged last: with one underscore and a first piece starting "port-",
      a second piece without "prod-" is reported as an invalid product ID. */
  lemma ProductCheckedLast(key: string, i: int)
    requires 0 <= i < |ToLower(key)| && ToLower(key)[i] == ImportSeparator
    requires ImportSeparator !in ToLower(key)[..i] && ImportSeparator !in ToLower(key)[i + 1..]
    requires HasPrefix(ToLower(key)[..i], PortfolioPrefix)
    requires !HasPrefix(ToLower(key)[i + 1..], ProductPrefix)
    ensures ValidateImportKey(key) == Failure(ImportKeyError(key, InvalidProductId))
  {
    SplitAtOnlySeparator(ToLower(key), i, ImportSeparator);
  }

  /** Keys that differ only in letter case are judged alike and give the same parts. */
  lemma ImportKeyCaseInsensitive(k1: string, k2: string)
    requires ToLower(k1) == ToLower(k2)
    ensures ValidateImportKey(k1).Success? <==> ValidateImportKey(k2).Success?
    ensures ValidateImportKey(k1).Success? ==> ValidateImportKey(k1).value == ValidateImportKey(k2).value
    ensures ValidateImportKey(k1).Failure? ==>
      ValidateImportKey(k1).error.problem == ValidateImportKey(k2).error.problem
  {
  }

  /** A key assembled from a lower-case portfolio identifier and a lower-case product identifier,
      each with its prefix and without underscores, parses back into the two identifiers. */
  lemma ImportKeyRoundTrip(portfolioId: string, productId: string)
    requires IsLowerCase(portfolioId) && IsLowerCase(productId)
    requires HasPrefix(portfolioId, PortfolioPrefix) && HasPrefix(productId, ProductPrefix)
    requires ImportSeparator !in portfolioId && ImportSeparator !in productId
    ensures ValidateImportKey(portfolioId + [ImportSeparator] + productId) == Success([portfolioId, productId])
  {
    var key := portfolioId + [ImportSeparator] + productId;
    ToLowerAppend(portfolioId + [ImportSeparator], productId);
    ToLowerAppend(portfolioId, [ImportSeparator]);
    assert ToLower(key) == key;
    var i := |portfolioId|;
    assert key[..i] == portfolioId;
    assert key[i + 1..] == productId;
    assert WellFormedAt(ToLower(key), i);
    ImportKeyAccepted(key);
  }

  /** The same pair in the wrong order fails on the portfolio piece. */
  lemma SwappedKeyExample()
    ensures ValidateImportKey("prod-x_port-y") == Failure(ImportKeyError("prod-x_port-y", InvalidPortfolioId))
  {
    var key := "prod-x_port-y";
    LowerCaseFixed(key);
    assert ToLower(key) == key;
    assert key[..6][2] == 'o' != PortfolioPrefix[2];
    PortfolioCheckedFirst(key, 6);
  }

  /** A key without an underscore fails on the piece count. */
  lemma SinglePartExample()
    ensures ValidateImportKey("onlyonepart") == Failure(ImportKeyError("onlyonepart", TooFewParts))
  {
    ImportKeyPartCount("onlyonepart");
  }

  // ---------------------------------------------------------------------------------------
  // Identity

  /** productPortfolioIDHash: "product-portfolio-" followed by the decimal hash of
      portfolio_id + "-" + portfolio_id.  The product field is read as a second copy of the
      portfolio field, so the product identifier takes no part.  `hash` stands for the
      checksum routine the provider uses. */
  function ProductPortfolioIdHash(portfolioId: string, productId: string, hash: string -> nat): (id: string)
    ensures HasPrefix(id, IdentityPrefix)
    ensures |id| > |IdentityPrefix| && IsDigits(id[|IdentityPrefix|..])
  {
    var secondField := portfolioId;
    var key := portfolioId + "-" + secondField;
    IdentityPrefix + Decimal(hash(key))
  }

  /** Two identities are equal exactly when the hashes of their portfolio-only keys are: the
      product identifier never separates two associations. */
  lemma IdentityEqualIff(pf1: string, pr1: string, pf2: string, pr2: string, hash: string -> nat)
    ensures ProductPortfolioIdHash(pf1, pr1, hash) == ProductPortfolioIdHash(pf2, pr2, hash)
      <==> hash(pf1 + "-" + pf1) == hash(pf2 + "-" + pf2)
  {
    var d1, d2 := Decimal(hash(pf1 + "-" + pf1)), Decimal(hash(pf2 + "-" + pf2));
    if IdentityPrefix + d1 == IdentityPrefix + d2 {
      assert d1 == (IdentityPrefix + d1)[|IdentityPrefix|..];
      assert d2 == (IdentityPrefix + d2)[|IdentityPrefix|..];
      DecimalInjective(hash(pf1 + "-" + pf1), hash(pf2 + "-" + pf2));
    }
  }

  /** The collision: one portfolio with two different products yields one identity. */
  lemma IdentityCollision(portfolioId: string, product1: string, product2: string, hash: string -> nat)
    requires product1 != product2
    ensures ProductPortfolioIdHash(portfolioId, product1, hash) == ProductPortfolioIdHash(portfolioId, product2, hash)
  {
    IdentityEqualIff(portfolioId, product1, portfolioId, product2, hash);
  }

  // ---------------------------------------------------------------------------------------
  // Force-new rules

  /** The configurable part of the resource record. */
  datatype Config = Config(portfolioId: string, productId: string, sourcePortfolioId: string)

  /** The fields whose change forces a replacement: portfolio_id is declared force-new in the
      schema, product_id and source_portfolio_id are forced by the diff customisation.  So every
      configurable change forces a replacement and no change is ever applied in place. */
  function ForceNewFields(prior: Config, planned: Config): (fields: set<string>)
    ensures fields <= {"portfolio_id", "product_id", "source_portfolio_id"}
    ensures fields == {} <==> prior == planned
    ensures "portfolio_id" in fields <==> prior.portfolioId != planned.portfolioId
  {
    (if prior.portfolioId != planned.portfolioId then {"portfolio_id"} else {})
    + (if prior.productId != planned.productId then {"product_id"} else {})
    + (if prior.sourcePortfolioId != planned.sourcePortfolioId then {"source_portfolio_id"} else {})
  }

  // ---------------------------------------------------------------------------------------
  // The resource record and its handlers

  class Association {
    var portfolioId: string
    var productId: string
    var sourcePortfolioId: string    // "" when not configured
    var id: string                   // "" when the resource is absent

    constructor (portfolioId: string, productId: string, sourcePortfolioId: string, id: string)
      ensures this.portfolioId == portfolioId && this.productId == productId
      ensures this.sourcePortfolioId == sourcePortfolioId && this.id == id
    {
      this.portfolioId := portfolioId;
      this.productId := productId;
      this.sourcePortfolioId := sourcePortfolioId;
      this.id := id;
    }

    function Settings(): Config
      reads this
    {
      Config(portfolioId, productId, sourcePortfolioId)
    }

    /** Read: lists the portfolios of the product and keeps the resource (with its identity) only
        if the portfolio is among them; no other field changes and no error is reported. */
    method Read(conn: CatalogService, hash: string -> nat) returns (err: Option<Error>)
      modifies this
      ensures err.None?
      ensures Settings() == old(Settings())
      ensures id == if Edge(portfolioId, productId) in conn.edges
                    then ProductPortfolioIdHash(portfolioId, productId, hash) else ""
      ensures id == "" <==> Edge(portfolioId, productId) !in conn.edges
    {
      var details := conn.ListPortfoliosForProduct(ListInput(AcceptLanguage, productId));
      var found := false;
      var i := 0;
      while i < |details|
        invariant 0 <= i <= |details|
        invariant found <==> exists j :: 0 <= j < i && details[j].id == portfolioId
      {
        if details[i].id == portfolioId {
          found := true;
        }
        i := i + 1;
      }
      ListedIffAssociated(conn.edges, portfolioId, productId);
      if !found {
        id := "";
        return None;
      } else {
        id := ProductPortfolioIdHash(portfolioId, productId, hash);
      }
      return None;
    }

    /** Update issues no remote call of its own: every change forces a replacement, so it is Read. */
    method Update(conn: CatalogService, hash: string -> nat) returns (err: Option<Error>)
      modifies this
      ensures err.None?
      ensures Settings() == old(Settings())
      ensures id == if Edge(portfolioId, productId) in conn.edges
                    then ProductPortfolioIdHash(portfolioId, productId, hash) else ""
    {
      err := Read(conn, hash);
    }

    /** Create: associates the product with the portfolio (passing the source portfolio only when
        one is configured) and reads the association back.  A refused association is reported
        wrapped, with no read-back and the record untouched. */
    method Create(conn: CatalogService, failure: Option<Error>, hash: string -> nat)
      returns (input: AssociateInput, err: Option<Error>)
      modifies this, conn
      ensures Settings() == old(Settings())
      ensures input.acceptLanguage == AcceptLanguage
      ensures input.portfolioId == portfolioId && input.productId == productId
      ensures input.sourcePortfolioId == if sourcePortfolioId != "" then Some(sourcePortfolioId) else None
      ensures failure.Some? ==>
        && err == Some(Message("Associating Service Catalog Product with Portfolio failed: " + ErrorText(failure.value)))
        && id == old(id) && conn.edges == old(conn.edges)
      ensures failure.None? ==>
        && err.None?
        && conn.edges == old(conn.edges) + [Edge(portfolioId, productId)]
        && id == ProductPortfolioIdHash(portfolioId, productId, hash)
    {
      input := AssociateInput(AcceptLanguage, portfolioId, productId, None);
      if sourcePortfolioId != "" {
        input := input.(sourcePortfolioId := Some(sourcePortfolioId));
      }
      var callErr := conn.AssociateProductWithPortfolio(input, failure);
      if callErr.Some? {
        return input, Some(Message("Associating Service Catalog Product with Portfolio failed: " + ErrorText(callErr.value)));
      }
      err := Read(conn, hash);
    }

    /** Delete: disassociates the product from the portfolio; a refusal is reported with both
        identifiers.  The record itself is left to the caller. */
    method Delete(conn: CatalogService, failure: Option<Error>) returns (input: DisassociateInput, err: Option<Error>)
      modifies conn
      ensures input == DisassociateInput(portfolioId, productId)
      ensures failure.Some? ==>
        && err == Some(Message("Disassociating Product (" + productId + ") from Portfolio (" + portfolioId
                               + ") failed: " + ErrorText(failure.value)))
        && conn.edges == old(conn.edges)
      ensures failure.None? ==>
        && err.None?
        && conn.edges == Without(old(conn.edges), Edge(portfolioId, productId))
        && Edge(portfolioId, productId) !in conn.edges
    {
      input := DisassociateInput(portfolioId, productId);
      var callErr := conn.DisassociateProductFromPortfolio(input, failure);
      if callErr.Some? {
        return input, Some(Message("Disassociating Product (" + input.productId + ") from Portfolio ("
                                   + input.portfolioId + ") failed: " + ErrorText(callErr.value)));
      }
      err := None;
    }

    /** populateAssociationFromImport: records the two parts and the identity; never fails. */
    method PopulateFromImport(parts: seq<string>, hash: string -> nat) returns (err: Option<Error>)
      requires |parts| >= 2
      modifies this
      ensures err.None?
      ensures portfolioId == parts[0] && productId == parts[1] && sourcePortfolioId == old(sourcePortfolioId)
      ensures id == ProductPortfolioIdHash(parts[0], parts[1], hash)
    {
      portfolioId := parts[0];
      productId := parts[1];
      id := ProductPortfolioIdHash(portfolioId, productId, hash);
      return None;
    }

    /** The importer: the resource ID holds the import key; a valid key populates the record,
        an invalid one is reported and changes nothing. */
    method Import(hash: string -> nat) returns (err: Option<Error>)
      modifies this
      ensures var v := ValidateImportKey(old(id));
        && (v.Failure? ==> err == Some(Message(v.error.Text())) && Settings() == old(Settings()) && id == old(id))
        && (v.Success? ==>
              && err.None?
              && portfolioId == v.value[0] && productId == v.value[1]
              && sourcePortfolioId == old(sourcePortfolioId)
              && id == ProductPortfolioIdHash(portfolioId, productId, hash))
    {
      var parts := ValidateImportKey(id);
      if parts.Failure? {
        return Some(Message(parts.error.Text()));
      }
      err := PopulateFromImport(parts.value, hash);
    }
  }
}
