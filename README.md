# Permission-request screen and keyring label: decision rules

This project models the decision logic inside two view components of a
browser-extension wallet. It does not model their markup.

- **PermissionPageContainerContent** is the screen a site or extension sees
  when it asks to connect. The model covers:
  - the title precedence (`getTitle`);
  - the account tooltip (the first six address labels, then "+N more");
  - the header text;
  - the per-permission row computation inside `renderRequestedPermissions`.
    It handles plugin-prefixed names, the wildcard description template and
    its first `$1` placeholder, `eth_accounts` being disabled, and checked
    state from truthiness. The model covers the callback's description,
    checked-state and toggle computation (lines 40-74) as if the JSX it
    builds could be evaluated. As written, that JSX uses `CheckBox`, which is
    never imported, so the component throws instead of producing rows. What
    the component would render after the callback is
    `PermissionsConnectPermissionList`, not these rows.
- **KeyRingLabel** has one state cell, `label`. It starts as null. An
  effect overwrites it whenever the `keyring` prop reference changes, but
  only when the keyring's `type` matches one of five tags. The label is
  rendered only when it is truthy.

The localisation function `t` is not interpreted. A call `t(key, args)` is
the value `Message(key, args)` (module `Messages`). The rendered text of a
localised keyring label does depend on `t`, so each `KeyRingLabel` holds
the `t` it was mounted with as a constant, and `View` uses that `t`. Two constant sets come from packages that are not part
of this model: `PLUGIN_PREFIX` and the `KEYRING_TYPES` constants. Both are
parameters (`pluginPrefix`, `KeyringTypes`). Distinctness of the keyring
tags is stated as `Distinct` and assumed only where a lemma says so.

Modules: `Wrappers` (Option, Result), `Messages`, `JsBuiltins`
(truthiness, `startsWith`, `replace` with a string pattern),
`PermissionPageContent` (pure functions and lemmas) and `KeyringLabel`
(a class for the component's state, with pure functions specifying it).

Three behaviours of the code are easy to misread; the model follows the code:
- An unrecognised keyring type does not clear the label. The previous label
  stays, possibly a stale one (`LabelIsLastMatch`, `LabelNeverResets`).
- The `eth_accounts` row is disabled, but its checked state is the
  truthiness of its value, like every other row. It is not forced to checked.
- An `extensionId` counts only when it is truthy, so an empty id behaves as
  absent (`HasExtensionId`).

## Model

| member | source | states |
|---|---|---|
| JsBuiltins.ReplaceFirstWithoutMatch | ui/components/app/permission-page-container/permission-page-container-content/permission-page-container-content.component.js:51-54 | `replace` with a string pattern that does not occur returns the string unchanged |
| JsBuiltins.ReplaceFirstAtFirstMatch | ui/components/app/permission-page-container/permission-page-container-content/permission-page-container-content.component.js:51-54 | `replace` splices the replacement in at the first occurrence only and keeps everything before and after it, later occurrences included |
| JsBuiltins.StripLeadingPrefix | ui/components/app/permission-page-container/permission-page-container-content/permission-page-container-content.component.js:53 | `permissionName.replace(PLUGIN_PREFIX, '')` on a name that starts with the prefix yields the name without that prefix |
| PermissionPageContent.AccountTooltip | ui/components/app/permission-page-container/permission-page-container-content/permission-page-container-content.component.js:95-122 | the tooltip wraps the given text, lists the first min(6, n) address labels in their order, and has a `plusXMore` line exactly when n > 6; listed labels plus the hidden count equal n |
| PermissionPageContent.TooltipOfEight | ui/components/app/permission-page-container/permission-page-container-content/permission-page-container-content.component.js:106-115 | eight identities give six labels and `plusXMore` with 2 |
| PermissionPageContent.Title | ui/components/app/permission-page-container/permission-page-container-content/permission-page-container-content.component.js:124-146 | first match wins: `externalExtension` exactly when there is an extension id; `connectToAll` exactly when there is none and all are selected; `connectToMultiple` exactly when neither and more than one identity; `connectTo` otherwise; always one substitution |
| PermissionPageContent.TitleExtensionIdWins | ui/components/app/permission-page-container/permission-page-container-content/permission-page-container-content.component.js:132-133 | with an extension id, the title is `externalExtension` with that id, whatever the identities and the flag |
| PermissionPageContent.TitleAllSelected | ui/components/app/permission-page-container/permission-page-container-content/permission-page-container-content.component.js:134-137 | no extension id and all selected gives `connectToAll` wrapping the `connectToAllAccounts` tooltip, for any number of identities |
| PermissionPageContent.TitleMultipleCarriesCount | ui/components/app/permission-page-container/permission-page-container-content/permission-page-container-content.component.js:138-143 | not all selected and more than one identity gives `connectToMultiple`; its tooltip text carries exactly the number of identities |
| PermissionPageContent.TitleSingleAccount | ui/components/app/permission-page-container/permission-page-container-content/permission-page-container-content.component.js:145 | otherwise the title is `connectTo` with the first identity's label, or undefined for an empty list |
| PermissionPageContent.TitleOneAccountExample | ui/components/app/permission-page-container/permission-page-container-content/permission-page-container-content.component.js:145 | one identity "Account 1", no extension, not all selected gives `connectTo` with "Account 1" |
| PermissionPageContent.HeaderText | ui/components/app/permission-page-container/permission-page-container-content/permission-page-container-content.component.js:161-165 | `allowExternalExtensionTo` with the id exactly when there is an extension id, `allowThisSiteTo` otherwise |
| PermissionPageContent.HeaderAgreesWithTitle | ui/components/app/permission-page-container/permission-page-container-content/permission-page-container-content.component.js:132-165 | the header names an external extension exactly when the title does |
| PermissionPageContent.PermissionRowFor | ui/components/app/permission-page-container/permission-page-container-content/permission-page-container-content.component.js:40-64 | a row fails exactly for a prefixed name other than `eth_accounts` whose wildcard template is missing; otherwise it keeps the name, is disabled exactly for `eth_accounts`, is checked exactly when the value is truthy with the matching checkbox title, and is described by `t('eth_accounts')`, by the wildcard template with its first `$1` replaced by the name without the prefix, or by direct lookup |
| PermissionPageContent.RequestedPermissionRows | ui/components/app/permission-page-container/permission-page-container-content/permission-page-container-content.component.js:40-86 | the description computation (lines 40-57) over all permissions in key order, with the rest of the callback treated as if `CheckBox` resolved: succeeds exactly when every row's description succeeds, then gives one row per permission in order; otherwise fails with the missing-template error |
| PermissionPageContent.ToggleOnClick | ui/components/app/permission-page-container/permission-page-container-content/permission-page-container-content.component.js:70-74 | a click calls `onPermissionToggle` exactly when the row is not disabled, and with the row's own name |
| PermissionPageContent.PluginDescriptionFillsFirstPlaceholder | ui/components/app/permission-page-container/permission-page-container-content/permission-page-container-content.component.js:50-54 | a plugin row's description is the template with the name's suffix at the first `$1` and the rest of the template kept |
| PermissionPageContent.PluginDescriptionWithoutPlaceholder | ui/components/app/permission-page-container/permission-page-container-content/permission-page-container-content.component.js:50-54 | a template without `$1` is used as it is |
| PermissionPageContent.PluginSuffixSubstituted | ui/components/app/permission-page-container/permission-page-container-content/permission-page-container-content.component.js:41-54 | the permission `prefix + suffix` gets the wildcard template with `$1` replaced by `suffix` |
| PermissionPageContent.RowsFailOnlyForMissingTemplate | ui/components/app/permission-page-container/permission-page-container-content/permission-page-container-content.component.js:40-57 | the description computation (lines 40-57) throws exactly when the wildcard template is missing and some non-`eth_accounts` name carries the prefix |
| PermissionPageContent.RowsToggleRule | ui/components/app/permission-page-container/permission-page-container-content/permission-page-container-content.component.js:45-74 | in the computed rows, `eth_accounts` is described by `t('eth_accounts')` and never toggles, every other row toggles its own name, and every row is checked exactly when its value is truthy |
| KeyringLabel.LabelFor | ui/components/app/account-menu/keyring-label.js:19-36 | the chain sets a label exactly for a present keyring whose type is one of the five tags, and the label is one of the five labels |
| KeyringLabel.LabelForTestsInOrder | ui/components/app/account-menu/keyring-label.js:21-35 | QR gives `t('hardware')`, then `'Simple Key Pair'` gives `t('imported')`, then Trezor, Ledger and Lattice give their literal names; an earlier matching tag wins |
| KeyringLabel.LabelForDistinctTags | ui/components/app/account-menu/keyring-label.js:21-35 | with distinct tags each tag sets its own label |
| KeyringLabel.EffectStep | ui/components/app/account-menu/keyring-label.js:15-38 | one effect run overwrites the label only when a tag matched, keeps it otherwise, and never turns a set label back to null |
| KeyringLabel.LabelNeverResets | ui/components/app/account-menu/keyring-label.js:15-38 | once set, the label stays set whatever keyrings follow |
| KeyringLabel.LabelUnchangedWithoutMatch | ui/components/app/account-menu/keyring-label.js:12-38 | runs without a recognised keyring leave the initial label |
| KeyringLabel.LabelIsLastMatch | ui/components/app/account-menu/keyring-label.js:15-38 | the label is the one set by the last run that saw a recognised keyring, however many absent or unrecognised keyrings came after |
| KeyringLabel.KeyRingLabel.constructor | ui/components/app/account-menu/keyring-label.js:12 | mounting starts with a null label and no effect run |
| KeyringLabel.KeyRingLabel.OnKeyringChange | ui/components/app/account-menu/keyring-label.js:15-37 | the effect body: the label is one `EffectStep` from its old value, unchanged unless a tag matched, and the run is recorded |
| KeyringLabel.KeyRingLabel.Render | ui/components/app/account-menu/keyring-label.js:15-38 | the effect runs only when the keyring reference differs from the last run's (always on the first render); a change inside the same object leaves the label alone |
| KeyringLabel.KeyRingLabel.View | ui/components/app/account-menu/keyring-label.js:40-44 | the label's text, translated by the component's `t`, is rendered exactly when it is truthy |
| KeyringLabel.NothingShownBeforeMatch | ui/components/app/account-menu/keyring-label.js:12-42 | until a recognised keyring has been seen, nothing is rendered |
| KeyringLabel.LiteralLabelShown | ui/components/app/account-menu/keyring-label.js:27-42 | a Trezor, Ledger or Lattice label is always rendered |

## Left out

- JSX markup, CSS class names and the `Tooltip`, `PermissionsConnectHeader` and `PermissionsConnectPermissionList` components. Their rendering is not part of this model. The icon, name and origin passed to the header are plain pass-throughs.
- What `renderRequestedPermissions` renders is `PermissionsConnectPermissionList`, not the computed rows. That output is not represented.
- RequestedPermissionRows: treats the `.map` callback as if `CheckBox` resolved. As written, `CheckBox` (line 76) is not imported. Every row whose description did not already throw therefore throws a ReferenceError when its JSX is built. So `renderRequestedPermissions`, and `render` with it, throws for every non-empty `selectedPermissions`.
- KeyRingLabel.View: the source stores the already-translated string (lines 22 and 25), and the effect does not re-run when `t` changes (line 38). The model fixes `t` when the component is mounted, so a locale change while it is mounted is not modelled. After such a change the source keeps showing the old translation.
- The localisation function `t` and React context: calls are `Message` values.
- React scheduling of `useState`/`useEffect`. Only the step "after a render whose keyring reference changed, run the effect" is modelled, in `KeyRingLabel.Render`.
- The `console.log` in the effect, which is I/O.
- PropTypes and defaultProps. The defaults (`[]`, `false`) are ordinary inputs of `Title` and `AccountTooltip`.
- A missing `domainMetadata` (a TypeError in the component) and identities without an `addressLabel`. `DomainMetadata` and `Identity` always carry these fields.
- The concrete values of `PLUGIN_PREFIX` and `KEYRING_TYPES`. They are parameters.
- ReplaceFirst: does not model the special replacement patterns of `String.prototype.replace` (`$&`, `$1` and the like inside the substituted name). It models plain first-occurrence substitution.
- RequestedPermissionRows: takes the permissions as a sequence in `Object.keys` order. It does not model JavaScript's rule that integer-like keys come first.
- Truthy: JavaScript numbers are real numbers here, with NaN as a separate value. Floating-point rounding, BigInt, Symbol and `document.all` are not modelled.
- `permissionsDescriptions` maps names to strings. Non-string values and inherited prototype properties are not modelled.
