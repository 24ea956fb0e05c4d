# Service catalog association and provisioning-artifact handlers in Dafny

This project models two resource handlers of a Terraform provider for the AWS Service Catalog,
together with the helpers of the association resource's acceptance tests.

* **Product–portfolio association** (`association.dfy`, module `ProductAssociation`). The
  resource record (`portfolio_id`, `product_id`, `source_portfolio_id`, ID) is a class.
  The remote catalog is a class holding the association edges (`catalog.dfy`, module
  `Catalog`). The model covers:
  * the import-key parser, `PORTFOLIOID_PRODUCTID`, which is case-insensitive and splits on `_`;
  * import population and the identity string;
  * the force-new rules, which make every configuration change a replacement, so that Update
    is only a Read;
  * Create, Read and Delete, stated against the catalog's edges.
* **Provisioning artifact** (`artifact.dfy`, module `ProvisioningArtifact`). The model covers:
  * construction of the create request: the type default and the single `LoadTemplateFromURL`
    Info entry;
  * the refresh classification and the polling helper as a state machine over a finite sequence
    of describe results (`Pending -> Pending | Reached | Stopped`);
  * the rule that the artifact ID is recorded only after the wait succeeds;
  * Read's not-found handling;
  * Update's field selection;
  * the Delete request.
* **Acceptance-test helpers** (`checks.dfy`, module `AssociationChecks`). The model covers:
  * the import-ID builder;
  * the existence check and the destroy check;
  * the two test steps that build on them: moving the association to another portfolio, and
    importing it back.
* `strings.dfy` (module `Strings`) gives Go's `strings.ToLower` (on ASCII letters),
  `strings.Split`, `strings.Join`, `strings.HasPrefix` and `%d` as Dafny functions, with the
  split/join round trip proved. `errors.dfy` (module `Errors`) holds the error values and the
  Option/Result wrappers.

The identity string reproduces the code as written. `productPortfolioIDHash` reads
`portfolio_id` twice, so the hashed key is `portfolio_id + "-" + portfolio_id`. A key built
from both endpoints would tell such associations apart. The model follows the code, and the lemmas
`IdentityEqualIff` and `IdentityCollision` make the consequence explicit: two associations of
one portfolio with different products get the same ID.

Update of the artifact also follows the code as written. When `description` changes, it sends
the value of `name` as the new description.

The polling helper is configured with the target `{AVAILABLE}` and no pending list. A describe
error ends the wait at once. Every status other than `AVAILABLE`, including a failure status,
keeps it polling until the deadline. The code sets no failure status, so a failed artifact is
polled until the deadline, and the model does the same.

The checksum routine behind the identity is a parameter `hash: string -> nat`. The service's
answers are parameters too: a call's failure, the created artifact, the describe results seen
while polling, and the describe result of the final read.

## Model

| member | source | states |
|---|---|---|
| `ProductAssociation.ValidateImportKey` | aws/resource_aws_servicecatalog_associate_product_with_portfolio.go:130-154 | an accepted key gives exactly two underscore-free parts, prefixed `port-` and `prod-`, that rebuild the lower-cased key around one `_`; a refusal carries the key as given |
| `ProductAssociation.ImportKeyAccepted` | aws/resource_aws_servicecatalog_associate_product_with_portfolio.go:135-153 | a key is accepted iff its lower-cased form has exactly one `_`, with `port-…` before it and `prod-…` after it; the parts are then those two lower-cased segments |
| `ProductAssociation.ImportKeyPartCount` | aws/resource_aws_servicecatalog_associate_product_with_portfolio.go:135-139 | "too few parts" is reported iff the key's underscore count is not one, so keys with more than two parts get it too |
| `ProductAssociation.PortfolioCheckedFirst` | aws/resource_aws_servicecatalog_associate_product_with_portfolio.go:137-150 | with the part count right, a first part without `port-` is reported as an invalid portfolio ID whatever the second part is |
| `ProductAssociation.ProductCheckedLast` | aws/resource_aws_servicecatalog_associate_product_with_portfolio.go:148-150 | with one `_` and a first part starting `port-`, a second part without `prod-` is reported as an invalid product ID |
| `ProductAssociation.ImportKeyCaseInsensitive` | aws/resource_aws_servicecatalog_associate_product_with_portfolio.go:135 | keys with the same lower-case form get the same verdict, the same parts and the same problem |
| `ProductAssociation.ImportKeyRoundTrip` | aws/resource_aws_servicecatalog_associate_product_with_portfolio.go:135-153 | `pf + "_" + prod`, for lower-case prefixed IDs without `_`, parses back to `[pf, prod]` |
| `ProductAssociation.SwappedKeyExample` | aws/resource_aws_servicecatalog_associate_product_with_portfolio.go:144-146 | `prod-x_port-y` is refused as an invalid portfolio ID |
| `ProductAssociation.SinglePartExample` | aws/resource_aws_servicecatalog_associate_product_with_portfolio.go:137-139 | `onlyonepart` is refused with "too few parts" |
| `ProductAssociation.ProductPortfolioIdHash` | aws/resource_aws_servicecatalog_associate_product_with_portfolio.go:187-195 | the identity is `product-portfolio-` followed by a non-empty run of decimal digits |
| `ProductAssociation.IdentityEqualIff` | aws/resource_aws_servicecatalog_associate_product_with_portfolio.go:187-195 | two identities are equal iff the hashes of `portfolio + "-" + portfolio` are equal, whatever the products |
| `ProductAssociation.IdentityCollision` | aws/resource_aws_servicecatalog_associate_product_with_portfolio.go:189-190 | one portfolio with two different products gets one identity |
| `ProductAssociation.ForceNewFields` | aws/resource_aws_servicecatalog_associate_product_with_portfolio.go:43-59 | the set of fields that force a replacement is empty iff the configuration is unchanged, so no change is ever applied in place |
| `ProductAssociation.Association.Read` | aws/resource_aws_servicecatalog_associate_product_with_portfolio.go:93-124 | no error; no configured field changes; the ID is the identity iff the catalog holds the (portfolio, product) edge, and `""` otherwise |
| `ProductAssociation.Association.Update` | aws/resource_aws_servicecatalog_associate_product_with_portfolio.go:126-128 | no remote mutation (the catalog is not in its frame); the same outcome as Read |
| `ProductAssociation.Association.Create` | aws/resource_aws_servicecatalog_associate_product_with_portfolio.go:72-91 | the request carries `SourcePortfolioId` iff it is configured; a refused call returns the wrapped error with the ID and the catalog unchanged; success adds the edge and sets the ID to the identity |
| `ProductAssociation.Association.Delete` | aws/resource_aws_servicecatalog_associate_product_with_portfolio.go:170-185 | the request names both IDs; success removes that edge and keeps every other one; a refusal is reported with both IDs and changes nothing |
| `ProductAssociation.Association.PopulateFromImport` | aws/resource_aws_servicecatalog_associate_product_with_portfolio.go:156-168 | sets the portfolio to `parts[0]`, the product to `parts[1]` and the ID to their identity; never fails |
| `ProductAssociation.Association.Import` | aws/resource_aws_servicecatalog_associate_product_with_portfolio.go:26-36 | an invalid key is reported with its message and changes nothing; a valid one is populated as above |
| `Catalog.ListedIffAssociated` | aws/resource_aws_servicecatalog_associate_product_with_portfolio.go:108-114 | the search over a product's listing finds a portfolio iff the catalog holds that edge |
| `Catalog.CatalogService.AssociateProductWithPortfolio` | aws/resource_aws_servicecatalog_associate_product_with_portfolio.go:85 | the service adds the edge unless it answers with an error |
| `Catalog.CatalogService.DisassociateProductFromPortfolio` | aws/resource_aws_servicecatalog_associate_product_with_portfolio.go:180 | the service removes the edge unless it answers with an error |
| `AssociationChecks.ImportStateId` | aws/resource_aws_servicecatalog_associate_product_with_portfolio_test.go:136-152 | a missing resource is an error; otherwise the ID is `portfolio_id + "_" + product_id` |
| `AssociationChecks.ExistsCheck` | aws/resource_aws_servicecatalog_associate_product_with_portfolio_test.go:104-134 | passes iff the resource is recorded with a non-empty ID and its product's listing succeeds and names its portfolio; the errors for a missing resource, an empty ID and a failed listing |
| `AssociationChecks.ExistsCheckReflectsCatalog` | aws/resource_aws_servicecatalog_associate_product_with_portfolio_test.go:111-132 | against the catalog's listing, the existence check passes iff the ID is non-empty and the catalog holds the edge |
| `AssociationChecks.DestroyVerdict` | aws/resource_aws_servicecatalog_associate_product_with_portfolio_test.go:83-98 | "still exists" iff the listing succeeded and is non-empty; a not-found error counts as destroyed; any other error is returned unchanged |
| `AssociationChecks.DestroyCheckDecidesOnFirst` | aws/resource_aws_servicecatalog_associate_product_with_portfolio_test.go:76-99 | the destroy check skips other resource types and returns the verdict on the first association resource |
| `AssociationChecks.DestroyCheck` | aws/resource_aws_servicecatalog_associate_product_with_portfolio_test.go:76-102 | with no association resource recorded the check passes; a reported error always comes from some association resource |
| `AssociationChecks.DestroyVerdictReflectsCatalog` | aws/resource_aws_servicecatalog_associate_product_with_portfolio_test.go:88-98 | against the catalog's listing, the verdict is "destroyed" iff the catalog holds no edge for the product |
| `AssociationChecks.ApplyPortfolioChange` | aws/resource_aws_servicecatalog_associate_product_with_portfolio_test.go:58-62 | changing only the portfolio replaces the edge: after delete and create succeed, the new edge is present, the old one is gone, and the existence check passes for the new record |
| `AssociationChecks.ImportStep` | aws/resource_aws_servicecatalog_associate_product_with_portfolio_test.go:64-69 | importing the built ID into a blank record restores the same portfolio and product and the identity Read gives |
| `ProvisioningArtifact.TypeOrDefault` | aws/resource_aws_servicecatalog_provisioning_artifact.go:85-89 | the configured type when it is non-empty, else a non-empty default (`CLOUD_FORMATION_TEMPLATE`) |
| `ProvisioningArtifact.Refresh` | aws/resource_aws_servicecatalog_provisioning_artifact.go:104-112 | a describe error becomes an error with no result and an empty state; a successful describe becomes its output with its status as the state |
| `ProvisioningArtifact.Step` | aws/resource_aws_servicecatalog_provisioning_artifact.go:103-117 | a reached or stopped wait never changes; an error stops a pending wait with that error; a pending wait is reached only on `AVAILABLE`, with that output |
| `ProvisioningArtifact.Run` | aws/resource_aws_servicecatalog_provisioning_artifact.go:103-117 | the wait is still pending after a run iff it was pending before and every result succeeded with a status other than `AVAILABLE`; a newly reached wait carries an `AVAILABLE` output |
| `ProvisioningArtifact.WaitFor` | aws/resource_aws_servicecatalog_provisioning_artifact.go:103-117 | the wait times out iff no result is an error or `AVAILABLE`; a completed wait returns an `AVAILABLE` output |
| `ProvisioningArtifact.DefaultPolls` | aws/resource_aws_servicecatalog_provisioning_artifact.go:25-26 | the default 15-minute create timeout allows 300 polls at 3-second intervals |
| `ProvisioningArtifact.FirstDecisiveObservation` | aws/resource_aws_servicecatalog_provisioning_artifact.go:103-114 | the first describe result that is an error or `AVAILABLE` decides the wait: the error stops it, and `AVAILABLE` completes it with that result |
| `ProvisioningArtifact.TimesOutWhenNothingDecides` | aws/resource_aws_servicecatalog_provisioning_artifact.go:103-117 | if every result succeeds with a status other than `AVAILABLE`, the wait times out and names the last reported status |
| `ProvisioningArtifact.TerminalStateStays` | aws/resource_aws_servicecatalog_provisioning_artifact.go:103-117 | once reached or stopped, the wait's state never changes again |
| `ProvisioningArtifact.ThirdPollConverges` | aws/resource_aws_servicecatalog_provisioning_artifact.go:115-116 | pending, pending, `AVAILABLE` succeeds with the third result iff the timeout exceeds two 3-second intervals; otherwise it times out |
| `ProvisioningArtifact.WaitForState` | aws/resource_aws_servicecatalog_provisioning_artifact.go:103-118 | the polling loop, stopping at the first decisive result within its budget, gives the state machine's outcome on those results |
| `ProvisioningArtifact.ReadOutcome` | aws/resource_aws_servicecatalog_provisioning_artifact.go:135-153 | a not-found answer clears the ID, keeps every other field and reports no error; any other error is reported as "reading ServiceCatalog provisioned product '<id>' failed: …" with the record unchanged; a success keeps the ID and product and takes description, name, type, created time, active flag and status from the description, and the template URL from the `TemplateUrl` info entry (or `""` when absent) |
| `ProvisioningArtifact.Artifact.Read` | aws/resource_aws_servicecatalog_provisioning_artifact.go:127-155 | on not-found, clears the ID and returns no error; on another error, wraps it with the ID and changes nothing; otherwise writes the seven described fields |
| `ProvisioningArtifact.Artifact.Create` | aws/resource_aws_servicecatalog_provisioning_artifact.go:71-125 | the request has the type default and the single `LoadTemplateFromURL` Info entry; a wait that does not reach `AVAILABLE` within the timeout's polls returns its error with the record untouched; otherwise the ID is set to the new artifact's ID, then Read |
| `ProvisioningArtifact.Artifact.Update` | aws/resource_aws_servicecatalog_provisioning_artifact.go:157-182 | `Description` is sent iff the description changed, taking the value of `name`; `Active` is sent iff it changed; the update's answer is ignored and the outcome is Read's |
| `ProvisioningArtifact.Artifact.Delete` | aws/resource_aws_servicecatalog_provisioning_artifact.go:184-196 | the request names the artifact and product; a refusal is reported with the artifact ID |

## Left out

- The AWS SDK calls are modelled as the catalog of edges for the association resource. For the
  artifact they are modelled as the answers passed in as parameters. Wire requests, paging and
  retries are not modelled.
- `hashcode.String` (a CRC32 checksum) is the parameter `hash`; its arithmetic is not modelled.
- Lower-casing covers ASCII letters only. Go's `strings.ToLower` also folds other Unicode letters.
- The `%q` quoting in the import-key message does not escape special characters. An SDK error's
  text is rendered as `code: message`, without the wrapped cause.
- `WaitForState` does not model wall-clock time. The deadline becomes a budget of
  `ceil(timeout / 3 s)` polls (300 for the default 15 minutes), ignoring the time each describe
  call takes.
- `WaitForState` leaves out the polling helper's not-found counter (20 checks), which applies
  only when the refresh returns no result; this refresh never does that without an error.
- `WaitForState` has no cancellation, and the code offers none.
- The timeout error's text leaves out the timeout duration.
- The artifact's Create swallows the create call's error and then uses the response. The model
  takes the created artifact as given, that is, it assumes the call returned a response.
  Likewise, the association's Read discards the listing error; the model reads the catalog's
  listing directly.
- `created_time` is kept as the already formatted text; RFC3339 formatting is not modelled.
  Nil string pointers in service answers read as `""`.
- The idempotency token (a fresh unique ID in the code) is a parameter of Create.
- The artifact's pass-through importer, logging, the schema and timeout declarations, the
  provider connection plumbing and the HCL configuration templates are not modelled.
- The portfolio and product data sources are one-shot lookups and are not modelled.
- `DestroyCheckDecidesOnFirst`: the destroy check walks a Go map, whose order is unspecified.
  The model takes the order as the given sequence of recorded resources.
- `ApplyPortfolioChange`: the replacement (delete, then create a fresh record) is done by the
  orchestrator, not by the provider. It is modelled only as far as the update test step needs.
