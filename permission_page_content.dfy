/**
 * The decision rules of the permission-request screen
 * (`PermissionPageContainerContent`): the title, the account tooltip, the
 * header text and the per-permission row computation. The component's
 * markup is not modelled; every localised string is a `Message`.
 */
module PermissionPageContent {
  import opened Wrappers
  import opened Messages
  import opened JsBuiltins

  /** The basic account-exposure permission, which may never be deselected. */
  const EthAccounts := "eth_accounts"
  /** The number of address labels the account tooltip lists. */
  const TooltipLimit := 6
  /** The placeholder of a plugin permission's description template. */
  const Placeholder := "$1"

  /** `domainMetadata`: host, name and origin are required, the rest optional. */
  datatype DomainMetadata = DomainMetadata(
    extensionId: Option<string>,
    icon: Option<string>,
    host: string,
    name: string,
    origin: string)

  /** One entry of `selectedIdentities`. */
  datatype Identity = Identity(addressLabel: string)

  /** One own property of `selectedPermissions`, in `Object.keys` order. */
  datatype PermissionEntry = PermissionEntry(name: string, value: JsValue)

  /** What a permission row's label shows. */
  datatype Description =
    | Localized(msg: Message)           // `t(permissionName)`
    | Looked(text: Option<string>)      // a description string, or undefined when missing

  /** One computed permission row: its checkbox state and its label. */
  datatype PermissionRow = PermissionRow(
    name: string,
    description: Description,
    disabled: bool,
    checked: bool,
    checkboxTitle: Message)

  /** The row computation throws: `.replace` was called on a missing template. */
  datatype RowError = TemplateMissing(templateKey: string)

  /** `if (domainMetadata.extensionId)`: an empty id counts as absent. */
  predicate HasExtensionId(d: DomainMetadata) {
    d.extensionId.Some? && d.extensionId.value != ""
  }

  function Min(a: int, b: int): int {
    if a < b then a else b
  }

  /** The count carried by a tooltip's "+N more" line, 0 when there is none. */
  function HiddenCount(tip: Tooltip): int {
    if tip.overflow.Some? && |tip.overflow.value.args| == 1 && tip.overflow.value.args[0].NumberArg?
    then tip.overflow.value.args[0].n
    else 0
  }

  /**
   * `renderAccountTooltip(textContent)`: the first six address labels in
   * order, then a `plusXMore` line exactly when some identities are not
   * listed; listed labels plus the hidden count are all identities.
   */
  function AccountTooltip(identities: seq<Identity>, textContent: Message): (tip: Tooltip)
    ensures tip.content == textContent
    ensures |tip.lines| == Min(TooltipLimit, |identities|)
    ensures forall i :: 0 <= i < |tip.lines| ==> tip.lines[i] == identities[i].addressLabel
    ensures tip.overflow.Some? <==> |identities| > TooltipLimit
    ensures tip.overflow.Some? ==> tip.overflow.value.key == "plusXMore"
    ensures |tip.lines| + HiddenCount(tip) == |identities|
  {
    var shown := identities[..Min(TooltipLimit, |identities|)];
    Tooltip(
      textContent,
      seq(|shown|, i requires 0 <= i < |shown| => shown[i].addressLabel),
      if |identities| > TooltipLimit
      then Some(Message("plusXMore", [NumberArg(|identities| - TooltipLimit)]))
      else None)
  }

  /**
   * `getTitle()`: an extension id wins, then the all-selected flag, then
   * more than one identity, and otherwise the single-account title; each
   * key is chosen exactly under its condition.
   */
  function Title(d: DomainMetadata, identities: seq<Identity>, allSelected: bool): (r: Message)
    ensures r.key == "externalExtension" <==> HasExtensionId(d)
    ensures r.key == "connectToAll" <==> !HasExtensionId(d) && allSelected
    ensures r.key == "connectToMultiple" <==> !HasExtensionId(d) && !allSelected && |identities| > 1
    ensures r.key == "connectTo" <==> !HasExtensionId(d) && !allSelected && |identities| <= 1
    ensures |r.args| == 1
  {
    if HasExtensionId(d) then
      Message("externalExtension", [TextArg(d.extensionId.value)])
    else if allSelected then
      Message("connectToAll", [TooltipArg(AccountTooltip(identities, Message("connectToAllAccounts", [])))])
    else if |identities| > 1 then
      Message("connectToMultiple", [TooltipArg(AccountTooltip(identities,
        Message("connectToMultipleNumberOfAccounts", [NumberArg(|identities|)])))])
    else
      Message("connectTo", [if |identities| == 0 then UndefinedArg else TextArg(identities[0].addressLabel)])
  }

  /** The `headerText` passed to the header in `render()`. */
  function HeaderText(d: DomainMetadata): (r: Message)
    ensures r.key == "allowExternalExtensionTo" <==> HasExtensionId(d)
    ensures HasExtensionId(d) ==> r.args == [TextArg(d.extensionId.value)]
    ensures !HasExtensionId(d) ==> r == Message("allowThisSiteTo", [])
  {
    if HasExtensionId(d) then Message("allowExternalExtensionTo", [TextArg(d.extensionId.value)])
    else Message("allowThisSiteTo", [])
  }

  /** The key under which a permission's description is looked up (`keyablePermissionName`). */
  function DescriptionKey(pluginPrefix: string, name: string): string {
    if StartsWith(name, pluginPrefix) then pluginPrefix + "*" else name
  }

  /** `permissionsDescriptions[key]`, undefined when the key is missing. */
  function Lookup(descriptions: map<string, string>, key: string): Option<string> {
    if key in descriptions then Some(descriptions[key]) else None
  }

  /** The checkbox title for a checked or unchecked row. */
  function CheckboxTitle(checked: bool): Message {
    Message(if checked then "permissionCheckedIconDescription" else "permissionUncheckedIconDescription", [])
  }

  /**
   * The body of the `Object.keys(selectedPermissions).map(...)` callback for
   * one permission. `eth_accounts` is described by `t` and disabled; a
   * plugin permission is described by the wildcard template with its first
   * `$1` replaced by the name without the prefix, and a missing template
   * throws; any other permission is described by direct lookup. The checked
   * state is the value's truthiness.
   */
  function PermissionRowFor(pluginPrefix: string, descriptions: map<string, string>, e: PermissionEntry)
    : (r: Result<PermissionRow, RowError>)
    ensures r.Failure? <==>
      e.name != EthAccounts && StartsWith(e.name, pluginPrefix) && pluginPrefix + "*" !in descriptions
    ensures r.Failure? ==> r.error == TemplateMissing(pluginPrefix + "*")
    ensures r.Success? ==> r.value.name == e.name
    ensures r.Success? ==> (r.value.disabled <==> e.name == EthAccounts)
    ensures r.Success? ==> (r.value.checked <==> Truthy(e.value))
    ensures r.Success? ==> r.value.checkboxTitle.args == []
    ensures r.Success? ==> (r.value.checkboxTitle.key == "permissionCheckedIconDescription" <==> Truthy(e.value))
    ensures r.Success? ==> (r.value.checkboxTitle.key == "permissionUncheckedIconDescription" <==> !Truthy(e.value))
    ensures e.name == EthAccounts ==> r.Success? && r.value.description == Localized(Message(EthAccounts, []))
    ensures r.Success? && e.name != EthAccounts && StartsWith(e.name, pluginPrefix) ==>
      r.value.description ==
        Looked(Some(ReplaceFirst(descriptions[pluginPrefix + "*"], Placeholder, e.name[|pluginPrefix|..])))
    ensures e.name != EthAccounts && !StartsWith(e.name, pluginPrefix) ==>
      r.Success? && r.value.description == Looked(Lookup(descriptions, e.name))
  {
    var isPlugin := StartsWith(e.name, pluginPrefix);
    var key := DescriptionKey(pluginPrefix, e.name);
    var isEthAccounts := e.name == EthAccounts;
    var checked := Truthy(e.value);
    var row := (description: Description) =>
      PermissionRow(e.name, description, isEthAccounts, checked, CheckboxTitle(checked));
    if isEthAccounts then
      Success(row(Localized(Message(e.name, []))))
    else if isPlugin then
      if key in descriptions then
        StripLeadingPrefix(e.name, pluginPrefix);
        Success(row(Looked(Some(ReplaceFirst(descriptions[key], Placeholder, ReplaceFirst(e.name, pluginPrefix, ""))))))
      else
        Failure(TemplateMissing(key))
    else
      Success(row(Looked(Lookup(descriptions, key))))
  }

  /**
   * The `.map` over `Object.keys(selectedPermissions)`, with each row's
   * markup treated as if `CheckBox` resolved: one row per permission in
   * order, or the error of the first description that throws.
   */
  function RequestedPermissionRows(pluginPrefix: string, descriptions: map<string, string>, entries: seq<PermissionEntry>)
    : (r: Result<seq<PermissionRow>, RowError>)
    ensures r.Success? <==>
      forall i :: 0 <= i < |entries| ==> PermissionRowFor(pluginPrefix, descriptions, entries[i]).Success?
    ensures r.Success? ==> |r.value| == |entries|
    ensures r.Success? ==>
      forall i :: 0 <= i < |entries| ==> PermissionRowFor(pluginPrefix, descriptions, entries[i]) == Success(r.value[i])
    ensures r.Failure? ==> r.error == TemplateMissing(pluginPrefix + "*")
    decreases |entries|
  {
    if entries == [] then Success([])
    else
      match PermissionRowFor(pluginPrefix, descriptions, entries[0])
      case Failure(err) => Failure(err)
      case Success(row) =>
        match RequestedPermissionRows(pluginPrefix, descriptions, entries[1..])
        case Failure(err) => Failure(err)
        case Success(rows) => Success([row] + rows)
  }

  /** The row's `onClick`: the name passed to `onPermissionToggle`, or nothing when the row is disabled. */
  function ToggleOnClick(row: PermissionRow): (toggled: Option<string>)
    ensures toggled.Some? <==> !row.disabled
    ensures toggled.Some? ==> toggled.value == row.name
  {
    if !row.disabled then Some(row.name) else None
  }

  // ---- Title precedence ----

  /** With an extension id, the title names that id whatever the identities and the flag are. */
  lemma TitleExtensionIdWins(d: DomainMetadata, ids1: seq<Identity>, all1: bool, ids2: seq<Identity>, all2: bool)
    requires HasExtensionId(d)
    ensures Title(d, ids1, all1) == Title(d, ids2, all2)
    ensures Title(d, ids1, all1) == Message("externalExtension", [TextArg(d.extensionId.value)])
  {
  }

  /**
   * Without an extension id, the all-selected flag gives `connectToAll`
   * wrapping the `connectToAllAccounts` tooltip, even for zero or one identity.
   */
  lemma TitleAllSelected(d: DomainMetadata, identities: seq<Identity>)
    requires !HasExtensionId(d)
    ensures var r := Title(d, identities, true);
      r.key == "connectToAll" && r.args[0].TooltipArg? &&
      r.args[0].tip == AccountTooltip(identities, Message("connectToAllAccounts", []))
  {
  }

  /** Several identities, not all selected: the tooltip's text carries exactly their number. */
  lemma TitleMultipleCarriesCount(d: DomainMetadata, identities: seq<Identity>)
    requires !HasExtensionId(d) && |identities| > 1
    ensures var r := Title(d, identities, false);
      r.key == "connectToMultiple" && r.args[0].TooltipArg? &&
      r.args[0].tip.content == Message("connectToMultipleNumberOfAccounts", [NumberArg(|identities|)]) &&
      r.args[0].tip == AccountTooltip(identities, r.args[0].tip.content)
  {
  }

  /** Otherwise the title names the first identity's label, or undefined for no identity. */
  lemma TitleSingleAccount(d: DomainMetadata, identities: seq<Identity>)
    requires !HasExtensionId(d) && |identities| <= 1
    ensures |identities| == 1 ==>
      Title(d, identities, false) == Message("connectTo", [TextArg(identities[0].addressLabel)])
    ensures |identities| == 0 ==> Title(d, identities, false) == Message("connectTo", [UndefinedArg])
  {
  }

  /** One identity "Account 1", not all selected, no extension: `t('connectTo', ['Account 1'])`. */
  lemma TitleOneAccountExample(d: DomainMetadata)
    requires d.extensionId == None
    ensures Title(d, [Identity("Account 1")], false) == Message("connectTo", [TextArg("Account 1")])
  {
  }

  /** The header speaks of an external extension exactly when the title does. */
  lemma HeaderAgreesWithTitle(d: DomainMetadata, identities: seq<Identity>, allSelected: bool)
    ensures HeaderText(d).key == "allowExternalExtensionTo" <==> Title(d, identities, allSelected).key == "externalExtension"
  {
  }

  // ---- Account tooltip ----

  /** Eight identities: six labels are listed, followed by "+2 more". */
  lemma TooltipOfEight(identities: seq<Identity>, textContent: Message)
    requires |identities| == 8
    ensures var tip := AccountTooltip(identities, textContent);
      tip.lines == [identities[0].addressLabel, identities[1].addressLabel, identities[2].addressLabel,
                    identities[3].addressLabel, identities[4].addressLabel, identities[5].addressLabel] &&
      tip.overflow == Some(Message("plusXMore", [NumberArg(2)]))
  {
  }

  // ---- Permission rows ----

  /**
   * A plugin permission's description replaces the template's first `$1`,
   * at index `k`, by the name without the prefix and keeps the rest of the
   * template, any later `$1` included.
   */
  lemma PluginDescriptionFillsFirstPlaceholder(pluginPrefix: string, descriptions: map<string, string>, e: PermissionEntry, k: nat)
    requires e.name != EthAccounts && StartsWith(e.name, pluginPrefix)
    requires pluginPrefix + "*" in descriptions
    requires OccursAt(descriptions[pluginPrefix + "*"], Placeholder, k)
    requires forall i: nat :: i < k ==> !OccursAt(descriptions[pluginPrefix + "*"], Placeholder, i)
    ensures var template := descriptions[pluginPrefix + "*"];
      PermissionRowFor(pluginPrefix, descriptions, e) ==
        Success(PermissionRow(e.name, Looked(Some(template[..k] + e.name[|pluginPrefix|..] + template[k + 2..])),
                              false, Truthy(e.value), CheckboxTitle(Truthy(e.value))))
  {
    ReplaceFirstAtFirstMatch(descriptions[pluginPrefix + "*"], Placeholder, e.name[|pluginPrefix|..], k);
  }

  /** A template without `$1` is shown as it is. */
  lemma PluginDescriptionWithoutPlaceholder(pluginPrefix: string, descriptions: map<string, string>, e: PermissionEntry)
    requires e.name != EthAccounts && StartsWith(e.name, pluginPrefix)
    requires pluginPrefix + "*" in descriptions
    requires forall i: nat :: i <= |descriptions[pluginPrefix + "*"]| ==> !OccursAt(descriptions[pluginPrefix + "*"], Placeholder, i)
    ensures PermissionRowFor(pluginPrefix, descriptions, e).Success?
    ensures PermissionRowFor(pluginPrefix, descriptions, e).value.description == Looked(Some(descriptions[pluginPrefix + "*"]))
  {
    ReplaceFirstWithoutMatch(descriptions[pluginPrefix + "*"], Placeholder, e.name[|pluginPrefix|..]);
  }

  /** The permission named `pluginPrefix + suffix` gets the wildcard template with `$1` replaced by `suffix`. */
  lemma PluginSuffixSubstituted(pluginPrefix: string, suffix: string, descriptions: map<string, string>, v: JsValue)
    requires pluginPrefix + suffix != EthAccounts
    requires pluginPrefix + "*" in descriptions
    ensures PermissionRowFor(pluginPrefix, descriptions, PermissionEntry(pluginPrefix + suffix, v)).Success?
    ensures PermissionRowFor(pluginPrefix, descriptions, PermissionEntry(pluginPrefix + suffix, v)).value.description
      == Looked(Some(ReplaceFirst(descriptions[pluginPrefix + "*"], Placeholder, suffix)))
  {
  }

  /**
   * The description computation throws exactly when some permission other
   * than `eth_accounts` carries the plugin prefix and the wildcard template
   * is missing.
   */
  lemma RowsFailOnlyForMissingTemplate(pluginPrefix: string, descriptions: map<string, string>, entries: seq<PermissionEntry>)
    ensures RequestedPermissionRows(pluginPrefix, descriptions, entries).Failure? <==>
      (pluginPrefix + "*" !in descriptions &&
       exists i :: 0 <= i < |entries| && entries[i].name != EthAccounts && StartsWith(entries[i].name, pluginPrefix))
  {
  }

  /**
   * In the computed rows, the `eth_accounts` row is disabled, described by
   * `t('eth_accounts')` and never toggles; every other row toggles its own
   * name; every row is checked exactly when its value is truthy.
   */
  lemma RowsToggleRule(pluginPrefix: string, descriptions: map<string, string>, entries: seq<PermissionEntry>)
    requires RequestedPermissionRows(pluginPrefix, descriptions, entries).Success?
    ensures var rows := RequestedPermissionRows(pluginPrefix, descriptions, entries).value;
      forall i :: 0 <= i < |entries| ==>
        rows[i].name == entries[i].name &&
        (rows[i].checked <==> Truthy(entries[i].value)) &&
        (entries[i].name == EthAccounts ==>
           ToggleOnClick(rows[i]) == None && rows[i].description == Localized(Message(EthAccounts, []))) &&
        (entries[i].name != EthAccounts ==> ToggleOnClick(rows[i]) == Some(entries[i].name))
  {
  }
}
