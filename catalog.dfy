/** The remote catalog service as the association handlers see it: an abstract collection of
    (portfolio, product) association edges, the portfolio listing for a product, and the two
    mutating calls.  Wire formats, paging and retries belong to the service client and are not
    modelled; a call's failure is supplied by the caller as the error the service answers with. */
module Catalog {
  import opened Errors

  /** One association: the product is a member of the portfolio. */
  datatype Edge = Edge(portfolioId: string, productId: string)

  /** One entry of a portfolio listing; only its identifier is consulted. */
  datatype PortfolioDetail = PortfolioDetail(id: string)

  datatype AssociateInput = AssociateInput(
    acceptLanguage: string,
    portfolioId: string,
    productId: string,
    sourcePortfolioId: Option<string>)

  datatype DisassociateInput = DisassociateInput(portfolioId: string, productId: string)

  datatype ListInput = ListInput(acceptLanguage: string, productId: string)

  /** The portfolios a product belongs to, one entry per stored edge of that product. */
  function PortfoliosFor(edges: seq<Edge>, productId: string): (details: seq<PortfolioDetail>)
    ensures forall d :: d in details <==> Edge(d.id, productId) in edges
  {
    if edges == [] then []
    else
      (if edges[0].productId == productId then [PortfolioDetail(edges[0].portfolioId)] else [])
      + PortfoliosFor(edges[1..], productId)
  }

  /** Does some entry of the listing carry the identifier `portfolioId`? */
  function Listed(details: seq<PortfolioDetail>, portfolioId: string): (found: bool)
    ensures found <==> exists j :: 0 <= j < |details| && details[j].id == portfolioId
  {
    |details| > 0 && (details[0].id == portfolioId || Listed(details[1..], portfolioId))
  }

  /** A product's listing names a portfolio exactly when the catalog holds that edge. */
  lemma ListedIffAssociated(edges: seq<Edge>, portfolioId: string, productId: string)
    ensures Listed(PortfoliosFor(edges, productId), portfolioId) <==> Edge(portfolioId, productId) in edges
  {
    var details := PortfoliosFor(edges, productId);
    if Edge(portfolioId, productId) in edges {
      assert PortfolioDetail(portfolioId) in details;
    }
  }

  /** The edges with every copy of `e` taken out. */
  function Without(edges: seq<Edge>, e: Edge): (r: seq<Edge>)
    ensures forall x :: x in r <==> x in edges && x != e
  {
    if edges == [] then []
    else (if edges[0] == e then [] else [edges[0]]) + Without(edges[1..], e)
  }

  class CatalogService {
    var edges: seq<Edge>

    constructor (edges: seq<Edge>)
      ensures this.edges == edges
    {
      this.edges := edges;
    }

    /** ListPortfoliosForProduct: the portfolios the requested product belongs to. */
    function ListPortfoliosForProduct(input: ListInput): seq<PortfolioDetail>
      reads this
    {
      PortfoliosFor(edges, input.productId)
    }

    /** AssociateProductWithPortfolio: adds the edge unless the service answers with `failure`. */
    method AssociateProductWithPortfolio(input: AssociateInput, failure: Option<Error>) returns (err: Option<Error>)
      modifies this
      ensures err == failure
      ensures edges == if failure.None? then old(edges) + [Edge(input.portfolioId, input.productId)] else old(edges)
    {
      err := failure;
      if failure.None? {
        edges := edges + [Edge(input.portfolioId, input.productId)];
      }
    }

    /** DisassociateProductFromPortfolio: removes the edge unless the service answers with `failure`. */
    method DisassociateProductFromPortfolio(input: DisassociateInput, failure: Option<Error>) returns (err: Option<Error>)
      modifies this
      ensures err == failure
      ensures edges == if failure.None? then Without(old(edges), Edge(input.portfolioId, input.productId)) else old(edges)
    {
      err := failure;
      if failure.None? {
        edges := Without(edges, Edge(input.portfolioId, input.productId));
      }
    }
  }
}
