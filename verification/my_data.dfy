/** The "My Data" page (MyData.tsx): a fixed catalogue of services grouped by
    category, the service picked for the authorization modal, the charge made
    to the wallet when it is connected, and the enabled-settings counter. */
module MyData {
  import opened Common
  import opened Services
  import DataSettings
  import WalletStore
  import AuthModal

  datatype Category = Category(services: seq<Service>)

  const EmailPassword: Option<seq<string>> := Some(["email", "password"])

  /** A catalogue entry without description or price. */
  function Plain(name: string, authFields: Option<seq<string>>): Service
  {
    Service(name, false, authFields, None, None)
  }

  const Financial := Category([
    Plain("Bank Account", EmailPassword),
    Service("Credit Score", false, EmailPassword, Some("Access your credit score and history"), Some(599)),
    Plain("Investment Account", EmailPassword)])
  const Shopping := Category([
    Plain("Amazon", EmailPassword),
    Plain("Walmart", EmailPassword),
    Plain("Uploaded Receipts", None)])
  const LocationCategory := Category([
    Plain("Google Maps", EmailPassword),
    Plain("Uber", EmailPassword)])
  const Entertainment := Category([
    Plain("Netflix", EmailPassword),
    Plain("Amazon Prime", EmailPassword)])

  /** The module-level `categories` record. Nothing ever writes to it. */
  function Catalogue(): (c: map<string, Category>)
    ensures c.Keys == {"financial", "shopping", "location", "entertainment"}
    ensures forall k, i :: k in c && 0 <= i < |c[k].services| ==> !c[k].services[i].connected
    ensures forall k, i :: k in c && 0 <= i < |c[k].services| ==>
      (c[k].services[i].price.Some? <==> c[k].services[i].name == "Credit Score")
    ensures |c["financial"].services| == 3 && c["financial"].services[1].name == "Credit Score"
    ensures c["financial"].services[1].price == Some(599)
  {
    map["financial" := Financial, "shopping" := Shopping,
        "location" := LocationCategory, "entertainment" := Entertainment]
  }

  /** Every catalogue entry, category by category in declaration order. */
  function AllServices(): seq<Service>
  {
    Financial.services + Shopping.services + LocationCategory.services + Entertainment.services
  }

  /** Every entry of every category is among `AllServices()`. */
  lemma CatalogueEntriesListed(category: string, index: int)
    requires category in Catalogue() && 0 <= index < |Catalogue()[category].services|
    ensures Catalogue()[category].services[index] in AllServices()
  {
  }

  /** Every catalogue entry starts (and, the catalogue being constant, stays)
      unconnected, and only "Credit Score" carries a price: 599 cents. */
  lemma CatalogueFacts(s: Service)
    requires s in AllServices()
    ensures !s.connected
    ensures s.price.Some? <==> s.name == "Credit Score"
    ensures s.price.Some? ==> s.price.value == 599
  {
  }

  /** No catalogue name is an inherited `Object.prototype` member, so on this
      page the written style lookup gives the intended table entry. */
  lemma CatalogueStylesAsIntended(s: Service)
    requires s in AllServices()
    ensures AuthModal.GetServiceStylesAsWritten(s.name) == AuthModal.Entry(AuthModal.GetServiceStyles(s.name))
  {
    AuthModal.AsWrittenAgreesOffPrototype(s.name);
  }

  /** `if (selectedService?.price) updateBalance(-selectedService.price)`: the
      amount taken from the wallet. A missing price and a price of 0 are both
      falsy, so nothing is charged for them. */
  function Charge(selected: Option<Service>): (cents: int)
    ensures cents != 0 <==> selected.Some? && selected.value.price.Some? && selected.value.price.value != 0
    ensures cents != 0 ==> cents == selected.value.price.value
  {
    match selected
    case None => 0
    case Some(s) =>
      match s.price
      case None => 0
      case Some(p) => p
  }

  /** For anything picked from the catalogue, a connect charges either nothing
      or 599 cents, the latter exactly for "Credit Score". */
  lemma CatalogueChargeIsCreditScoreOnly(s: Service)
    requires s in AllServices()
    ensures Charge(Some(s)) == (if s.name == "Credit Score" then 599 else 0)
  {
    CatalogueFacts(s);
  }

  const NoDescription := "No description available."

  /** The description handed to the modal:
      `selectedService.description || "No description available."`. */
  function ModalDescription(s: Service): (d: string)
    ensures d != ""
    ensures AuthModal.ShowsDescription(s.description) ==> d == s.description.value
    ensures !AuthModal.ShowsDescription(s.description) ==> d == NoDescription
  {
    match s.description
    case Some(text) => if text != "" then text else NoDescription
    case None => NoDescription
  }

  /** The modal's props: `Some` exactly when a service is selected (the modal
      is rendered iff `selectedService` is truthy), with the defaulted
      description, so the description paragraph is always rendered. */
  function ModalService(selected: Option<Service>): (props: Option<Service>)
    ensures props.Some? <==> selected.Some?
    ensures props.Some? ==> props.value == selected.value.(description := Some(ModalDescription(selected.value)))
    ensures props.Some? ==> props.value.name == selected.value.name
                            && AuthModal.ShowsDescription(props.value.description)
  {
    match selected
    case None => None
    case Some(s) => Some(s.(description := Some(ModalDescription(s))))
  }

  /** `Object.keys(dataSettings).length`. */
  function TotalCount(s: DataSettings.Settings): nat
  {
    |DataSettings.Values(s)|
  }

  /** `Object.values(dataSettings).filter(Boolean).length`: never more than the
      total; zero exactly when every setting is off; full exactly when every
      setting is on. */
  function EnabledCount(s: DataSettings.Settings): (n: nat)
    ensures n <= TotalCount(s)
    ensures n == 0 <==> !s.Get(DataSettings.Location) && !s.Get(DataSettings.Browsing)
    ensures n == TotalCount(s) <==> s.Get(DataSettings.Location) && s.Get(DataSettings.Browsing)
  {
    var flags := DataSettings.Values(s);
    CountTrueBounds(flags);
    CountTrue(flags)
  }

  /** The page's state: the selected service, plus the shared wallet it charges. */
  class MyDataPage {
    var selectedService: Option<Service>
    const wallet: WalletStore.Wallet

    /** Whatever is selected came from the catalogue. */
    ghost predicate Valid()
      reads this
    {
      selectedService.Some? ==> selectedService.value in AllServices()
    }

    constructor (wallet: WalletStore.Wallet)
      ensures Valid() && selectedService == None && this.wallet == wallet
    {
      selectedService := None;
      this.wallet := wallet;
    }

    /** `handleServiceToggle(category, index)`. An unknown category makes
        `categories[category].services` throw a TypeError before any state
        changes (`ok` is false). An index outside the category's list selects
        `undefined`, i.e. nothing. */
    method HandleServiceToggle(category: string, index: int) returns (ok: bool)
      requires Valid()
      modifies this
      ensures Valid()
      ensures ok <==> category in Catalogue()
      ensures !ok ==> selectedService == old(selectedService)
      ensures ok && 0 <= index < |Catalogue()[category].services| ==>
                selectedService == Some(Catalogue()[category].services[index])
      ensures ok && !(0 <= index < |Catalogue()[category].services|) ==> selectedService == None
    {
      if category !in Catalogue() {
        return false;
      }
      var services := Catalogue()[category].services;
      if 0 <= index < |services| {
        CatalogueEntriesListed(category, index);
        selectedService := Some(services[index]);
      } else {
        selectedService := None;
      }
      return true;
    }

    /** `handleConnect`: charge the selected service's price when it is
        present and non-zero, then clear the selection. The catalogue is not
        touched. */
    method HandleConnect()
      requires Valid()
      modifies this, wallet
      ensures Valid() && selectedService == None
      ensures wallet.balance == old(wallet.balance) - Charge(old(selectedService))
      ensures var creditScore := old(selectedService).Some? && old(selectedService).value.name == "Credit Score";
        wallet.balance == old(wallet.balance) - (if creditScore then 599 else 0)
    {
      if selectedService.Some? {
        CatalogueChargeIsCreditScoreOnly(selectedService.value);
      }
      if selectedService.Some? && selectedService.value.price.Some? && selectedService.value.price.value != 0 {
        wallet.UpdateBalance(-selectedService.value.price.value);
      }
      selectedService := None;
    }

    /** The modal's `onClose`: clear the selection. */
    method CloseModal()
      modifies this
      ensures Valid() && selectedService == None
    {
      selectedService := None;
    }
  }
}
