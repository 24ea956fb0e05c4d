/** The helpers of the association resource's acceptance tests: the import-ID builder, the
    existence check, the destroy check, and the two test steps that build on them (replacing the
    association with one for another portfolio, and importing it back). */
module AssociationChecks {
  import opened Errors
  import opened Strings
  import opened Catalog
  import opened ProductAssociation

  const AssociationResourceType := "aws_servicecatalog_associate_product_with_portfolio"

  /** A resource as recorded in the orchestrator's state: its type, ID and attribute map. */
  datatype InstanceState = InstanceState(id: string, attributes: map<string, string>)
  datatype ResourceState = ResourceState(resourceType: string, primary: InstanceState)

  /** An attribute's value; a missing attribute reads as "". */
  function Attribute(rs: ResourceState, key: string): string {
    if key in rs.primary.attributes then rs.primary.attributes[key] else ""
  }

  /** The service's answer to "list the portfolios of this product", by product identifier. */
  type Lister = string -> Result<seq<PortfolioDetail>, Error>

  /** The listing the catalog gives for every product. */
  function CatalogLister(edges: seq<Edge>): Lister {
    p => Success(PortfoliosFor(edges, p))
  }

  // ---------------------------------------------------------------------------------------
  // Import ID

  /** testAccAWSAssociateProductWithPortfolioImportStateIdFunc: the portfolio and product
      attributes of the named resource joined with '_'. */
  method ImportStateId(resources: map<string, ResourceState>, name: string) returns (r: Result<string, Error>)
    ensures name !in resources ==> r == Failure(Message("not found: " + name))
    ensures name in resources ==>
      r == Success(Attribute(resources[name], "portfolio_id") + "_" + Attribute(resources[name], "product_id"))
  {
    if name !in resources {
      return Failure(Message("not found: " + name));
    }
    var rs := resources[name];
    var portfolioId := Attribute(rs, "portfolio_id");
    var productId := Attribute(rs, "product_id");
    var parts: seq<string> := [];
    parts := parts + [portfolioId];
    parts := parts + [productId];
    JoinTwo(portfolioId, productId, '_');
    return Success(Join(parts, '_'));
  }

  // ---------------------------------------------------------------------------------------
  // Existence check

  /** testAccCheckServiceCatalogAssociateExists: the named resource must be recorded with an ID,
      and the listing of its product must name its portfolio. */
  function ExistsCheck(resources: map<string, ResourceState>, name: string, list: Lister): (r: Option<Error>)
    ensures r.None? <==>
      && name in resources
      && resources[name].primary.id != ""
      && list(Attribute(resources[name], "product_id")).Success?
      && exists j :: 0 <= j < |list(Attribute(resources[name], "product_id")).value|
                     && list(Attribute(resources[name], "product_id")).value[j].id
                        == Attribute(resources[name], "portfolio_id")
    ensures name !in resources ==> r == Some(Message("Not found: " + name))
    ensures name in resources && resources[name].primary.id == "" ==>
      r == Some(Message("No product association configured"))
    ensures name in resources && resources[name].primary.id != ""
            && list(Attribute(resources[name], "product_id")).Failure? ==>
      r == Some(list(Attribute(resources[name], "product_id")).error)
  {
    if name !in resources then Some(Message("Not found: " + name))
    else
      var rs := resources[name];
      if rs.primary.id == "" then Some(Message("No product association configured"))
      else
        var resp := list(Attribute(rs, "product_id"));
        if resp.Failure? then Some(resp.error)
        else if Listed(resp.value, Attribute(rs, "portfolio_id")) then None
        else Some(Message("Association not found"))
  }

  /** Against the catalog's own listing, the existence check passes exactly when the recorded
      resource has an ID and the catalog holds its edge. */
  lemma ExistsCheckReflectsCatalog(resources: map<string, ResourceState>, name: string, edges: seq<Edge>)
    requires name in resources
    ensures ExistsCheck(resources, name, CatalogLister(edges)).None? <==>
      && resources[name].primary.id != ""
      && Edge(Attribute(resources[name], "portfolio_id"), Attribute(resources[name], "product_id")) in edges
  {
    ListedIffAssociated(edges, Attribute(resources[name], "portfolio_id"), Attribute(resources[name], "product_id"));
  }

  // ---------------------------------------------------------------------------------------
  // Destroy check

  /** The destroy check's verdict on one association resource, given the listing of its product:
      a successful non-empty listing means the association still exists; a not-found error means
      it is gone; any other error is passed on unchanged. */
  function DestroyVerdict(rs: ResourceState, listing: Result<seq<PortfolioDetail>, Error>): (r: Option<Error>)
    ensures listing.Success? ==> (r.Some? <==> |listing.value| != 0)
    ensures listing.Success? && r.Some? ==> r.value == Message("Association " + rs.primary.id + " still exists")
    ensures listing.Failure? ==>
      r == if IsAwsErr(listing.error, ResourceNotFoundException) then None else Some(listing.error)
  {
    if listing.Success? && |listing.value| != 0 then Some(Message("Association " + rs.primary.id + " still exists"))
    else if listing.Failure? && IsAwsErr(listing.error, ResourceNotFoundException) then None
    else if listing.Failure? then Some(listing.error)
    else None
  }

  /** testAccCheckServiceCatalogAssociateDestroy: skips resources of other types and returns the
      verdict on the first association resource it meets (in the order the state is walked). */
  function DestroyCheck(resources: seq<ResourceState>, list: Lister): (r: Option<Error>)
    ensures (forall j :: 0 <= j < |resources| ==> resources[j].resourceType != AssociationResourceType) ==> r.None?
    ensures r.Some? ==> exists k :: 0 <= k < |resources| && resources[k].resourceType == AssociationResourceType
    decreases |resources|
  {
    if resources == [] then None
    else if resources[0].resourceType != AssociationResourceType then DestroyCheck(resources[1..], list)
    else DestroyVerdict(resources[0], list(Attribute(resources[0], "product_id")))
  }

  /** The destroy check decides on the first association resource alone. */
  lemma {:induction false} DestroyCheckDecidesOnFirst(resources: seq<ResourceState>, list: Lister, k: nat)
    requires k < |resources| && resources[k].resourceType == AssociationResourceType
    requires forall j :: 0 <= j < k ==> resources[j].resourceType != AssociationResourceType
    ensures DestroyCheck(resources, list) == DestroyVerdict(resources[k], list(Attribute(resources[k], "product_id")))
    decreases k
  {
    if k > 0 {
      DestroyCheckDecidesOnFirst(resources[1..], list, k - 1);
    }
  }

  /** Against the catalog's own listing, the verdict is "destroyed" exactly when the catalog holds
      no edge for the resource's product at all. */
  lemma DestroyVerdictReflectsCatalog(rs: ResourceState, edges: seq<Edge>)
    ensures DestroyVerdict(rs, CatalogLister(edges)(Attribute(rs, "product_id"))).None? <==>
      forall e :: e in edges ==> e.productId != Attribute(rs, "product_id")
  {
    var product := Attribute(rs, "product_id");
    var details := PortfoliosFor(edges, product);
    assert CatalogLister(edges)(product) == Success(details);
    if |details| != 0 {
      assert details[0] in details;
      assert Edge(details[0].id, product) in edges;
    }
    if exists e :: e in edges && e.productId == product {
      var e :| e in edges && e.productId == product;
      assert PortfolioDetail(e.portfolioId) in details;
    }
  }

  // ---------------------------------------------------------------------------------------
  // Test steps

  /** How the recorded state shows an association resource. */
  function Recorded(id: string, portfolioId: string, productId: string): ResourceState {
    ResourceState(AssociationResourceType,
                  InstanceState(id, map["portfolio_id" := portfolioId, "product_id" := productId]))
  }

  /** The update step: the configuration moves the association to another portfolio.  A changed
      configuration forces a replacement, which the orchestrator carries out as delete then create;
      an unchanged one is just an update.  After a successful replacement the catalog holds the new
      edge and not the old one, and the existence check passes for the new record. */
  method ApplyPortfolioChange(current: Association, conn: CatalogService, portfolioId: string,
                              hash: string -> nat, deleteFailure: Option<Error>, createFailure: Option<Error>)
    returns (next: Association, err: Option<Error>)
    modifies current, conn
    ensures portfolioId == old(current.portfolioId) ==> next == current && err.None?
    ensures portfolioId != old(current.portfolioId) && deleteFailure.None? && createFailure.None? ==>
      && err.None?
      && next.portfolioId == portfolioId && next.productId == old(current.productId)
      && next.id == ProductPortfolioIdHash(portfolioId, next.productId, hash)
      && Edge(portfolioId, next.productId) in conn.edges
      && Edge(old(current.portfolioId), next.productId) !in conn.edges
      && ExistsCheck(map["test" := Recorded(next.id, next.portfolioId, next.productId)], "test",
                     CatalogLister(conn.edges)).None?
  {
    var planned := Config(portfolioId, current.productId, current.sourcePortfolioId);
    if ForceNewFields(current.Settings(), planned) == {} {
      err := current.Update(conn, hash);
      return current, err;
    }
    var _, deleteErr := current.Delete(conn, deleteFailure);
    if deleteErr.Some? {
      return current, deleteErr;
    }
    next := new Association(portfolioId, current.productId, current.sourcePortfolioId, "");
    var _, createErr := next.Create(conn, createFailure, hash);
    err := createErr;
    if err.None? {
      var resources := map["test" := Recorded(next.id, next.portfolioId, next.productId)];
      ExistsCheckReflectsCatalog(resources, "test", conn.edges);
    }
  }

  /** The import step: the ID built from the recorded attributes is imported into a blank record,
      which comes back with the same portfolio, the same product and the identity Read gives. */
  method ImportStep(resources: map<string, ResourceState>, name: string, hash: string -> nat)
    returns (imported: Association?, err: Option<Error>)
    requires name in resources
    requires IsLowerCase(Attribute(resources[name], "portfolio_id"))
    requires IsLowerCase(Attribute(resources[name], "product_id"))
    requires HasPrefix(Attribute(resources[name], "portfolio_id"), PortfolioPrefix)
    requires HasPrefix(Attribute(resources[name], "product_id"), ProductPrefix)
    requires '_' !in Attribute(resources[name], "portfolio_id") && '_' !in Attribute(resources[name], "product_id")
    ensures err.None? && imported != null && fresh(imported)
    ensures imported.portfolioId == Attribute(resources[name], "portfolio_id")
    ensures imported.productId == Attribute(resources[name], "product_id")
    ensures imported.id == ProductPortfolioIdHash(imported.portfolioId, imported.productId, hash)
  {
    var key := ImportStateId(resources, name);
    imported := new Association("", "", "", key.value);
    ImportKeyRoundTrip(Attribute(resources[name], "portfolio_id"), Attribute(resources[name], "product_id"));
    err := imported.Import(hash);
  }
}
