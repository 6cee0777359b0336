/** The single-service authorization modal (AuthModal.tsx): a table of button
    styles keyed by service name, a lookup with a fallback to the `default`
    entry, and the optional description paragraph. */
module AuthModal {
  import opened Common

  /** One entry of the `styles` table: Tailwind class names. */
  datatype ServiceStyle = ServiceStyle(button: string, focus: string, accent: string, text: string, border: string)

  const NetflixStyle := ServiceStyle("bg-red-500", "focus:ring-red-500", "text-red-500", "text-gray-700", "hover:border-red-500")
  const AmazonPrimeStyle := ServiceStyle("bg-blue-500", "focus:ring-blue-500", "text-blue-500", "text-gray-700", "hover:border-blue-500")
  const DefaultStyle := ServiceStyle("bg-gray-500", "focus:ring-gray-500", "text-gray-600", "text-gray-600", "hover:border-gray-500")

  /** The own properties of the `styles` object literal. */
  function Styles(): map<string, ServiceStyle>
  {
    map["Netflix" := NetflixStyle, "Amazon Prime" := AmazonPrimeStyle, "default" := DefaultStyle]
  }

  /** The properties every plain object literal inherits from `Object.prototype`.
      All of them are truthy, so `styles[name] || styles.default` keeps them. */
  const ObjectPrototypeMembers: set<string> := {
    "constructor", "hasOwnProperty", "isPrototypeOf", "propertyIsEnumerable",
    "toLocaleString", "toString", "valueOf", "__proto__",
    "__defineGetter__", "__defineSetter__", "__lookupGetter__", "__lookupSetter__"
  }

  /** What `styles[name] || styles.default` evaluates to as written: a table
      entry, or an inherited prototype member that is not a style at all. */
  datatype StyleLookup = Entry(style: ServiceStyle) | Inherited(member: string)

  /** `getServiceStyles` as written: property access on the object literal,
      which also finds inherited members. */
  function GetServiceStylesAsWritten(name: string): (r: StyleLookup)
    ensures r.Inherited? <==> name in ObjectPrototypeMembers
    ensures r.Entry? ==> r.style == NetflixStyle || r.style == AmazonPrimeStyle || r.style == DefaultStyle
  {
    if name in Styles() then Entry(Styles()[name])
    else if name in ObjectPrototypeMembers then Inherited(name)
    else Entry(Styles()["default"])
  }

  /** A service named "constructor" gets the `Object` function instead of a
      style, so the connect button's classes read "undefined undefined". */
  lemma ConstructorEscapesFallback()
    ensures GetServiceStylesAsWritten("constructor") == Inherited("constructor")
    ensures forall s :: GetServiceStylesAsWritten("constructor") != Entry(s)
  {
  }

  /** `getServiceStyles` as intended: an own-property lookup with a fallback
      to the `default` entry. It is total, always returns one of the three
      entries, and matches names exactly and case-sensitively. */
  function GetServiceStyles(name: string): (s: ServiceStyle)
    ensures s == NetflixStyle || s == AmazonPrimeStyle || s == DefaultStyle
    ensures name == "Netflix" ==> s == NetflixStyle
    ensures name == "Amazon Prime" ==> s == AmazonPrimeStyle
    ensures name != "Netflix" && name != "Amazon Prime" ==> s == DefaultStyle
  {
    if name in Styles() then Styles()[name] else Styles()["default"]
  }

  /** The lookup is case-sensitive: "netflix" is not "Netflix". */
  lemma LookupIsCaseSensitive()
    ensures GetServiceStyles("netflix") == DefaultStyle
    ensures GetServiceStyles("Netflix") == NetflixStyle
  {
  }

  /** The written lookup and the intended one agree on every name that is not
      an inherited member of `Object.prototype`. */
  lemma AsWrittenAgreesOffPrototype(name: string)
    requires name !in ObjectPrototypeMembers
    ensures GetServiceStylesAsWritten(name) == Entry(GetServiceStyles(name))
  {
  }

  /** `{service.description && <p>…</p>}`: the paragraph is rendered when the
      description is present and is not the empty string, which is falsy. */
  predicate ShowsDescription(description: Option<string>): (shown: bool)
    ensures description.None? ==> !shown
    ensures description == Some("") ==> !shown
    ensures shown <==> description.Some? && |description.value| > 0
  {
    description.Some? && description.value != ""
  }
}
