/** The connectable third-party service record used by the sequential
    authorization flow and by the "My Data" page. */
module Services {
  import opened Common

  /** One connectable service. Icons are presentation and are not modelled.
      `authFields` is absent for some catalogue entries (e.g. "Uploaded Receipts").
      `price` is in integer cents (5.99 dollars is 599). */
  datatype Service = Service(
    name: string,
    connected: bool,
    authFields: Option<seq<string>>,
    description: Option<string>,
    price: Option<int>)
}
