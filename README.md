# Clover SDK plugin for Flutter: a Dafny model

This project models the Android side of a Flutter plugin that drives a Clover payment terminal.
The terminal is an Argentinian point-of-sale device. The model covers five pieces:

- **Receipt text layout.** Fixed-width item, sub-selection, header and total lines built with
  `String.format` and `trim`. Also centring, separator lengths, and the two builders that
  assemble the non-fiscal and the fiscal ticket line by line, with the "CAE / Fech Vto."
  authorisation-code rule.
- **Kiosk mode.** An unlock code, an active flag and the system-key filter.
- **The payment service.** A connector that is present or absent, three callback slots
  that are overwritten, and an idempotent `dispose`.
- **The channel plugin.** Dispatch by method name. Reading and defaulting of each
  operation's arguments, including the failure when an argument has the wrong runtime type.
  The `NOT_CONNECTED` guard, `disconnect`, and the pending payment and challenge that
  `confirmPayment` and `rejectPayment` consume.
- **The payment mapper.** From the vendor's sale response to the app's `PaymentResponse` and
  `PaymentInfo`, and from those to channel maps. A receiving-side decoder proves that the maps
  lose nothing.

## How it is modelled

- **Nullable values and defaults.** Kotlin nullable values are `Option`. Kotlin data-class
  defaults are Dafny datatype defaults.
- **Numbers.** `Int` and `Long` are bounded integer subset types. `Double` amounts are `real`,
  and they are only ever passed to the currency formatter.
- **The currency formatter.** It is a parameter `fmt: real -> string` (`NumberFormat` with the
  `es-AR` locale). Every layout property is proved for any formatter, under explicit conditions
  on its output's length where columns are involved.
- **Vendor SDK calls.**
  - The `PaymentConnector` is a record of how it was built.
  - Every call made on it is appended to a log of `ConnectorCall`s.
  - Whether a vendor call throws is an input (`VendorOutcome`).
  - Vendor enums are looked up in a set of constant names given to the plugin.
- **Channel values.**
  - A method call's arguments are a map of typed channel values.
  - `call.argument<T>` succeeds on an absent or `null` value and on a value of type `T`.
  - On a value of any other runtime type it throws `ClassCastException`.
  - An `Int` value is not a `Long`.
- **Callbacks.** Kotlin lambdas are identities. Invoking one appends it to a log.
- **Stateful classes.** Each class has the source's fields and a `State()` view. Each method's
  postcondition ties the new state to a step function on that view, and the lemmas are proved
  about the step functions.
- **The two ticket builders.** They are methods that append lines section by section and loop
  over items and sub-selections. Each section is specified by a function on sequences of lines.
- **The line width.** The text layout uses the printer's width in points (576) as
  its line width in characters. The model keeps that constant as it is.

## Model

| member | source | states |
|---|---|---|
| PrintService.TruncateDescription | android/src/main/kotlin/ar/com/orderfast/services/PrintService.kt:722-727 | a description is at most 25 characters; one that fits is unchanged, a longer one becomes exactly 25 |
| PrintService.TruncateKeepsPrefix | android/src/main/kotlin/ar/com/orderfast/services/PrintService.kt:723-724 | a long description keeps its first 22 characters and ends in `...`; the first character survives |
| PrintService.TruncateIdempotent | android/src/main/kotlin/ar/com/orderfast/services/PrintService.kt:722-727 | truncating a truncated description changes nothing |
| PrintService.TableHeader | android/src/main/kotlin/ar/com/orderfast/services/PrintService.kt:708-716 | the table header is 46 characters long |
| PrintService.TableHeaderColumns | android/src/main/kotlin/ar/com/orderfast/services/PrintService.kt:709-715 | the four titles sit at columns 0, 6, 32 and 41 |
| PrintService.TableHeaderIsFormatted | android/src/main/kotlin/ar/com/orderfast/services/PrintService.kt:709-715 | the header equals the trimmed `%-5s %-25s %-8s %-8s` row of the four titles |
| PrintService.ItemRowColumns | android/src/main/kotlin/ar/com/orderfast/services/PrintService.kt:730-736 | values that fit their fields leave each column in place: quantity and description left-aligned, subtotal and total right-aligned, 49 characters in all |
| PrintService.ItemRowTrimmed | android/src/main/kotlin/ar/com/orderfast/services/PrintService.kt:730-736 | a row that starts and ends with a visible character is left whole by the trim |
| PrintService.ItemLineIsRow | android/src/main/kotlin/ar/com/orderfast/services/PrintService.kt:721-737 | an item line equals the untrimmed column row of quantity, truncated description, subtotal and total |
| PrintService.ItemLineColumns | android/src/main/kotlin/ar/com/orderfast/services/PrintService.kt:721-737 | an item line is 49 characters, with every column at its offset; the subtotal column ends with the formatted subtotal and the line ends with the formatted total |
| PrintService.SubselectionRowColumns | android/src/main/kotlin/ar/com/orderfast/services/PrintService.kt:752-757 | the sub-selection row is a five-space indent followed by the three columns, 48 characters |
| PrintService.SubselectionRowTrimmed | android/src/main/kotlin/ar/com/orderfast/services/PrintService.kt:752-757 | the trim removes the five-space indent and nothing else |
| PrintService.SubselectionLineLayout | android/src/main/kotlin/ar/com/orderfast/services/PrintService.kt:742-757 | a sub-selection line starts with the truncated name, `" x "` and the quantity; it is 43 characters with price and total right-aligned and ends with the total |
| PrintService.TotalText | android/src/main/kotlin/ar/com/orderfast/services/PrintService.kt:765-766 | a formatted total that starts with `$` is kept, any other gets `$` prepended |
| PrintService.TotalTextHasDollar | android/src/main/kotlin/ar/com/orderfast/services/PrintService.kt:766 | the total text always starts with `$` |
| PrintService.TotalTextIdempotent | android/src/main/kotlin/ar/com/orderfast/services/PrintService.kt:766 | applying the `$` rule twice changes nothing |
| PrintService.TotalRowLayout | android/src/main/kotlin/ar/com/orderfast/services/PrintService.kt:767-771 | the total row starts with `Total:`, ends with the total text, survives the trim, and is 49 characters when the text fits 13 |
| PrintService.TotalLineLayout | android/src/main/kotlin/ar/com/orderfast/services/PrintService.kt:763-772 | the total line starts with `Total:` and ends with the `$` total text |
| PrintService.CenterText | android/src/main/kotlin/ar/com/orderfast/services/PrintService.kt:784-793 | text at least a line wide is returned unchanged; shorter text gets half the free width (rounded down) before it and never exceeds the line width |
| PrintService.CenterTextLayout | android/src/main/kotlin/ar/com/orderfast/services/PrintService.kt:789-792 | a centred line ends with the text and everything before it is spaces |
| PrintService.SeparatorCharCount | android/src/main/kotlin/ar/com/orderfast/services/PrintService.kt:467 | the count is at least one and is the width divided by eight, rounded down, once the width reaches 8 |
| PrintService.SeparatorForDefaultWidth | android/src/main/kotlin/ar/com/orderfast/services/PrintService.kt:33 | an 80 mm roll of 576 points gets 72 characters |
| PrintService.SeparatorLine | android/src/main/kotlin/ar/com/orderfast/services/PrintService.kt:464-468 | the separator is as long as the counted characters times the string, and for a one-character string it is exactly that character repeated the counted number of times |
| PrintService.Printed | android/src/main/kotlin/ar/com/orderfast/services/PrintService.kt:536 | the printed items are exactly the items with a positive quantity, each at most once per occurrence, so no more than the items |
| PrintService.PrintedAppend | android/src/main/kotlin/ar/com/orderfast/services/PrintService.kt:536 | the filter keeps order: the items printed from `a + b` are those of `a` followed by those of `b` |
| PrintService.PrintedSingle | android/src/main/kotlin/ar/com/orderfast/services/PrintService.kt:536 | a single item is printed exactly when its quantity is positive |
| PrintService.ItemBlockShape | android/src/main/kotlin/ar/com/orderfast/services/PrintService.kt:535-554 | a printed item contributes its item line, then its sub-selection lines in order, a blank line only when it has sub-selections, its note (non-fiscal only), and a closing `" "` line |
| PrintService.ItemsLinesLast | android/src/main/kotlin/ar/com/orderfast/services/PrintService.kt:535-554 | the items' lines are those of all items but the last, followed by the last item's block |
| PrintService.ItemsLinesAppend | android/src/main/kotlin/ar/com/orderfast/services/PrintService.kt:535-554 | the lines of two item lists concatenated are the two lists' lines concatenated |
| PrintService.SkippedItemsPrintNothing | android/src/main/kotlin/ar/com/orderfast/services/PrintService.kt:536 | items with quantity 0 or less contribute no lines: the lines equal those of the printed items alone |
| PrintService.ItemsLinesStep | android/src/main/kotlin/ar/com/orderfast/services/PrintService.kt:535-554 | each loop iteration appends exactly the current item's block |
| PrintService.BuildSubselectionLines | android/src/main/kotlin/ar/com/orderfast/services/PrintService.kt:541-543 | the loop over sub-selections produces one line per sub-selection, in order |
| PrintService.BuildItemBlock | android/src/main/kotlin/ar/com/orderfast/services/PrintService.kt:536-553 | the loop body for one item produces that item's block |
| PrintService.AppendItems | android/src/main/kotlin/ar/com/orderfast/services/PrintService.kt:535-554 | the item loop appends the lines of every item, in order, to the lines so far |
| PrintService.BuildNonFiscalHeader | android/src/main/kotlin/ar/com/orderfast/services/PrintService.kt:503-532 | the header lines are the double rule, the order number, the optional preference, identifier and table lead, the table header and a rule |
| PrintService.BuildNonFiscalFooter | android/src/main/kotlin/ar/com/orderfast/services/PrintService.kt:556-580 | the footer lines are rule, total, rules, centred date and the fixed disclaimer block |
| PrintService.BuildNonFiscalTicketLines | android/src/main/kotlin/ar/com/orderfast/services/PrintService.kt:500-583 | the ticket is the header, the item lines and the footer |
| PrintService.PreferenceLineIffKnown | android/src/main/kotlin/ar/com/orderfast/services/PrintService.kt:511-515 | a `Preferencia:` line appears if and only if the take-away flag is known |
| PrintService.NotPreferenceLine | android/src/main/kotlin/ar/com/orderfast/services/PrintService.kt:511-515 | with no take-away flag, no header line starts with `Preferencia:` |
| PrintService.IdentifierLineIff | android/src/main/kotlin/ar/com/orderfast/services/PrintService.kt:518-521 | an `Identificador:` line appears if and only if the order is not take-away and the identifier is non-empty |
| PrintService.NotIdentifierLine | android/src/main/kotlin/ar/com/orderfast/services/PrintService.kt:518-521 | when that condition fails, no header line starts with `Identificador:` |
| PrintService.DisclaimerIsIgnored | android/src/main/kotlin/ar/com/orderfast/services/PrintService.kt:572-576 | the ticket's own disclaimer does not change a single line |
| PrintService.EndsWithDisclaimer | android/src/main/kotlin/ar/com/orderfast/services/PrintService.kt:571-580 | every non-fiscal ticket ends with the fixed centred disclaimer and two blank lines |
| PrintService.CaeRule | android/src/main/kotlin/ar/com/orderfast/services/PrintService.kt:658-676 | both pieces on one line when they fit the width, on two lines in order when not, only the present piece when one is missing, no block if and only if both are missing (also applied with width 48 at lines 312-329) |
| PrintService.CaeLinesFit | android/src/main/kotlin/ar/com/orderfast/services/PrintService.kt:662-674 | every CAE line fits the width unless it is one of the two pieces on its own |
| PrintService.ViewCaeNarrowerThanText | android/src/main/kotlin/ar/com/orderfast/services/PrintService.kt:312-329 | the view layout (width 48) joins the CAE pieces only when the text layout does too, and the two differ only where the view splits a line the text layout keeps whole |
| PrintService.OriginalCode | android/src/main/kotlin/ar/com/orderfast/services/PrintService.kt:596 | the code is the number when it has at most two characters, otherwise `15` |
| PrintService.BuildFiscalHeader | android/src/main/kotlin/ar/com/orderfast/services/PrintService.kt:593-620 | the header lines are voucher type, original code, seller block, transaction block, optional final-consumer line and table head |
| PrintService.BuildCaeBlock | android/src/main/kotlin/ar/com/orderfast/services/PrintService.kt:658-676 | the appended CAE lines are the CAE block of the rule |
| PrintService.BuildFiscalClosing | android/src/main/kotlin/ar/com/orderfast/services/PrintService.kt:678-700 | the closing lines are rule, optional QR marker, rule and the fixed centred footer |
| PrintService.BuildFiscalFooter | android/src/main/kotlin/ar/com/orderfast/services/PrintService.kt:639-700 | the footer is the total and tax lines, the CAE block and the closing |
| PrintService.BuildFiscalTicketLines | android/src/main/kotlin/ar/com/orderfast/services/PrintService.kt:588-703 | the fiscal ticket is the header, the item lines without notes and the footer |
| PrintService.FiscalLeadHasTotal | android/src/main/kotlin/ar/com/orderfast/services/PrintService.kt:639-655 | the lines before the CAE block are three plus one per present tax field, and the second is the total line |
| PrintService.FiscalClosingOpensWithRule | android/src/main/kotlin/ar/com/orderfast/services/PrintService.kt:679 | what follows the CAE block starts with the double rule |
| PrintService.FiscalCaePlacement | android/src/main/kotlin/ar/com/orderfast/services/PrintService.kt:639-679 | in the footer, the CAE block sits right after the tax lines and right before the double rule |
| KotlinText.Trim | android/src/main/kotlin/ar/com/orderfast/services/PrintService.kt:715 | `trim()` leaves neither leading nor trailing whitespace and never lengthens the text |
| KotlinText.TrimRemovesOnlyWhitespace | android/src/main/kotlin/ar/com/orderfast/services/PrintService.kt:736 | the trimmed text is a slice of the input, and everything cut off is whitespace |
| KotlinText.TrimNoop | android/src/main/kotlin/ar/com/orderfast/services/PrintService.kt:736 | text with no whitespace at either end is left unchanged |
| KotlinText.TrimIdempotent | android/src/main/kotlin/ar/com/orderfast/services/PrintService.kt:548-549 | trimming twice is trimming once |
| KotlinText.TrimPadded | android/src/main/kotlin/ar/com/orderfast/services/PrintService.kt:752-757 | whitespace padding around trimmed text is removed exactly |
| KotlinText.PadRight | android/src/main/kotlin/ar/com/orderfast/services/PrintService.kt:731 | `%-Ns` pads to N characters and never shortens |
| KotlinText.PadRightPrefix | android/src/main/kotlin/ar/com/orderfast/services/PrintService.kt:731 | a left-aligned field starts with its value |
| KotlinText.PadRightSpaces | android/src/main/kotlin/ar/com/orderfast/services/PrintService.kt:731 | a left-aligned field's padding is spaces |
| KotlinText.PadLeft | android/src/main/kotlin/ar/com/orderfast/services/PrintService.kt:731 | `%Ns` pads to N characters and never shortens |
| KotlinText.PadLeftSuffix | android/src/main/kotlin/ar/com/orderfast/services/PrintService.kt:731 | a right-aligned field ends with its value |
| KotlinText.PadLeftSpaces | android/src/main/kotlin/ar/com/orderfast/services/PrintService.kt:731 | a right-aligned field's padding is spaces |
| KotlinText.NatToString | android/src/main/kotlin/ar/com/orderfast/services/PrintService.kt:731-732 | a number's decimal text is non-empty digits without a leading zero |
| KotlinText.NatToStringRoundTrip | android/src/main/kotlin/ar/com/orderfast/services/PrintService.kt:731-732 | reading the decimal text back gives the number |
| KotlinText.NatToStringLength | android/src/main/kotlin/ar/com/orderfast/services/PrintService.kt:731-732 | a number below 10^k has at most k digits, so quantities below 100000 fit the five-character column |
| KotlinText.IntToString | android/src/main/kotlin/ar/com/orderfast/services/PrintService.kt:751 | an integer's text is its digits, with a minus sign when negative |
| KotlinText.RepeatStringOfChar | android/src/main/kotlin/ar/com/orderfast/services/PrintService.kt:468 | repeating a one-character string is repeating that character |
| KioskService.EnableStep | android/src/main/kotlin/ar/com/orderfast/services/KioskService.kt:32-65 | the code is always replaced; the mode ends active unless screen pinning failed with something other than `SecurityException` |
| KioskService.DisableStep | android/src/main/kotlin/ar/com/orderfast/services/KioskService.kt:73-106 | a refused code changes nothing; an accepted one leaves no code and the mode off |
| KioskService.ActiveNow | android/src/main/kotlin/ar/com/orderfast/services/KioskService.kt:111-123 | the lock-task answer when the platform gives one, the stored flag otherwise |
| KioskService.BlocksKey | android/src/main/kotlin/ar/com/orderfast/services/KioskService.kt:130-140 | no key is blocked while inactive; while active exactly HOME, APP_SWITCH and MENU are |
| KioskService.WrongCodeKeepsKiosk | android/src/main/kotlin/ar/com/orderfast/services/KioskService.kt:75-78 | with a configured code, any other code (null included) is refused and nothing changes |
| KioskService.NoCodeAlwaysUnlocks | android/src/main/kotlin/ar/com/orderfast/services/KioskService.kt:75 | with no configured code, any code unlocks and the service returns to idle |
| KioskService.EnableThenDisable | android/src/main/kotlin/ar/com/orderfast/services/KioskService.kt:32-106 | enabling with a code and disabling with it returns to idle; disabling with another code keeps the kiosk on with the code |
| KioskService.BlockingFollowsLifecycle | android/src/main/kotlin/ar/com/orderfast/services/KioskService.kt:130-140 | after enable exactly the system keys are blocked; after disable or on an idle service none is |
| KioskService.IdleIsStable | android/src/main/kotlin/ar/com/orderfast/services/KioskService.kt:145-149 | an idle service stays idle when unlocked and is not active |
| KioskService.KioskService.constructor | android/src/main/kotlin/ar/com/orderfast/services/KioskService.kt:22-23 | a new service has no code and is not active |
| KioskService.KioskService.Enable | android/src/main/kotlin/ar/com/orderfast/services/KioskService.kt:32-65 | the fields become the enable step of the old ones; it throws exactly when pinning fails with a non-security exception |
| KioskService.KioskService.Disable | android/src/main/kotlin/ar/com/orderfast/services/KioskService.kt:73-106 | returns true exactly when the code unlocks, and the fields become the disable step |
| KioskService.KioskService.IsActive | android/src/main/kotlin/ar/com/orderfast/services/KioskService.kt:111-123 | the answer is the specified activity of the current fields |
| KioskService.KioskService.ShouldBlockKey | android/src/main/kotlin/ar/com/orderfast/services/KioskService.kt:130-140 | the answer is the specified key filter on the current fields |
| KioskService.KioskService.Dispose | android/src/main/kotlin/ar/com/orderfast/services/KioskService.kt:145-149 | the service ends idle, whatever its state, so a second call changes nothing |
| PaymentService.SaleFailed | android/src/main/kotlin/ar/com/orderfast/services/PaymentService.kt:86-96 | a failed sale is answered unsuccessful, reason `EXCEPTION`, with the exception's message |
| PaymentService.SaleRequestFor | android/src/main/kotlin/ar/com/orderfast/services/PaymentService.kt:73-84 | the sale copies amount and external id, is a `PAYMENT`, has all five `disable*` flags on and `NO_TIP`, and every other field (tip, tax, tippable amount, order, signature settings, card entry methods, vaulted card, offline flags) is unset |
| PaymentService.InitializeStep | android/src/main/kotlin/ar/com/orderfast/services/PaymentService.kt:37-56 | without an account, or when the connector constructor throws, nothing changes; otherwise the connector is built for the account and the service's application id |
| PaymentService.DisposeStep | android/src/main/kotlin/ar/com/orderfast/services/PaymentService.kt:102-109 | a present connector is disposed and the call logged; if that throws, connector and callbacks stay; otherwise no connector and no callback remain; the callback log is kept |
| PaymentService.NoConnectorAnswersOnce | android/src/main/kotlin/ar/com/orderfast/services/PaymentService.kt:62-69 | with no connector the callback is answered once `NOT_INITIALIZED`, is not stored, and nothing is sent |
| PaymentService.ConnectedPaymentIsSent | android/src/main/kotlin/ar/com/orderfast/services/PaymentService.kt:71-96 | with a connector the callback takes the slot and the sale is sent; the callback is answered at once only when the sale throws |
| PaymentService.SaleResponseGoesToLatest | android/src/main/kotlin/ar/com/orderfast/services/PaymentService.kt:71 | after two payments the terminal's answer reaches only the second callback |
| PaymentService.DisposeIdempotent | android/src/main/kotlin/ar/com/orderfast/services/PaymentService.kt:102-109 | once a dispose has left no connector, disposing again changes nothing |
| PaymentService.FailedDisposeKeepsConnector | android/src/main/kotlin/ar/com/orderfast/services/PaymentService.kt:102-104 | a throwing vendor dispose leaves the connector and all three callbacks in place and only logs the call |
| PaymentService.DisposedServiceIsInert | android/src/main/kotlin/ar/com/orderfast/services/PaymentService.kt:62-69 | after a completed dispose no event reaches a callback and a payment is answered `NOT_INITIALIZED` without a vendor call |
| PaymentService.PaymentService.constructor | android/src/main/kotlin/ar/com/orderfast/services/PaymentService.kt:29-32 | a new service has no connector and no callbacks |
| PaymentService.PaymentService.Initialize | android/src/main/kotlin/ar/com/orderfast/services/PaymentService.kt:37-56 | succeeds exactly when an account is found and the constructor completes, and the fields become the initialize step |
| PaymentService.PaymentService.ProcessPayment | android/src/main/kotlin/ar/com/orderfast/services/PaymentService.kt:61-97 | the fields become the payment step of the old ones |
| PaymentService.PaymentService.Dispose | android/src/main/kotlin/ar/com/orderfast/services/PaymentService.kt:102-109 | fails exactly when a present connector's dispose throws; the fields become the dispose step of the old ones |
| PaymentService.PaymentService.SetOnDeviceConnectedCallback | android/src/main/kotlin/ar/com/orderfast/services/PaymentService.kt:114-116 | the connected slot is replaced and nothing else changes |
| PaymentService.PaymentService.SetOnDeviceDisconnectedCallback | android/src/main/kotlin/ar/com/orderfast/services/PaymentService.kt:121-123 | the disconnected slot is replaced and nothing else changes |
| PaymentService.PaymentService.OnDeviceConnected | android/src/main/kotlin/ar/com/orderfast/services/PaymentService.kt:127-130 | the connected callback runs if one is set, otherwise nothing happens |
| PaymentService.PaymentService.OnDeviceDisconnected | android/src/main/kotlin/ar/com/orderfast/services/PaymentService.kt:132-135 | the disconnected callback runs if one is set, otherwise nothing happens |
| PaymentService.PaymentService.OnSaleResponse | android/src/main/kotlin/ar/com/orderfast/services/PaymentService.kt:137-141 | the mapped response goes to the stored sale callback, if any |
| PaymentMapper.EnumName | android/src/main/kotlin/ar/com/orderfast/mappers/PaymentMapper.kt:16 | the name of the constant, null exactly when there is none |
| PaymentMapper.ToPaymentInfo | android/src/main/kotlin/ar/com/orderfast/mappers/PaymentMapper.kt:23-33 | identifiers and amounts are copied unchanged and the result becomes its constant's name |
| PaymentMapper.ToPaymentResponse | android/src/main/kotlin/ar/com/orderfast/mappers/PaymentMapper.kt:13-21 | success is true exactly when the vendor said true; reason and message are copied; a payment is present exactly when the vendor gave one |
| PaymentMapper.InfoToMap | android/src/main/kotlin/ar/com/orderfast/mappers/PaymentMapper.kt:45-55 | exactly seven keys, each bound to its field, null where absent |
| PaymentMapper.ResponseToMap | android/src/main/kotlin/ar/com/orderfast/mappers/PaymentMapper.kt:35-43 | exactly five keys, each bound to its field; the nested payment map is null exactly when there is no payment |
| PaymentMapper.InfoMapRoundTrip | android/src/main/kotlin/ar/com/orderfast/mappers/PaymentMapper.kt:45-55 | decoding the payment map gives back the payment info |
| PaymentMapper.ResponseMapRoundTrip | android/src/main/kotlin/ar/com/orderfast/mappers/PaymentMapper.kt:35-55 | decoding the response map gives back the response |
| PaymentMapper.SaleResponseReachesChannel | android/src/main/kotlin/ar/com/orderfast/mappers/PaymentMapper.kt:13-55 | a vendor response reaches the channel map with its outcome, and its payment's identifiers and amounts unchanged in the nested map |
| ChannelValues.OfString | android/src/main/kotlin/ar/com/orderfast/mappers/PaymentMapper.kt:38-40 | a nullable string becomes `null` exactly when absent, else the string |
| ChannelValues.OfLong | android/src/main/kotlin/ar/com/orderfast/mappers/PaymentMapper.kt:50-52 | a nullable `Long` becomes `null` exactly when absent, else the number |
| ChannelValues.StringArgument | android/src/main/kotlin/ar/com/orderfast/CloverSdkPlugin.kt:78-80 | `argument<String>` gives null for an absent or null value and the string for a string, and fails for any other type |
| ChannelValues.LongArgument | android/src/main/kotlin/ar/com/orderfast/CloverSdkPlugin.kt:125 | `argument<Long>` gives null for an absent or null value and the number for a `Long`, and fails for any other type, `Int` included |
| ChannelValues.IntArgument | android/src/main/kotlin/ar/com/orderfast/CloverSdkPlugin.kt:124-178 | `argument<Int>` gives null for an absent or null value and the number for an `Int`, and fails for any other type |
| ChannelValues.BoolArgument | android/src/main/kotlin/ar/com/orderfast/CloverSdkPlugin.kt:124-178 | `argument<Boolean>` gives null for an absent or null value and the flag for a boolean, and fails for any other type |
| CloverVendor.ValueOf | android/src/main/kotlin/ar/com/orderfast/CloverSdkPlugin.kt:149-177 | an enum name gives the constant exactly when it is one of the enum's names |
| PluginArguments.CardOf | android/src/main/kotlin/ar/com/orderfast/CloverSdkPlugin.kt:124-178 | a card is built exactly when an id is given, with the id as its first six digits |
| PluginArguments.ConstantOf | android/src/main/kotlin/ar/com/orderfast/CloverSdkPlugin.kt:149-177 | an enum field is set exactly when a name is given and names a constant; an unknown name leaves it unset without failing |
| PluginArguments.ConnectionOf | android/src/main/kotlin/ar/com/orderfast/CloverSdkPlugin.kt:78-87 | a cast failure exactly when an argument is mistyped; otherwise a refused account exactly when a name is given and the name or the account type (`com.clover.account` unless another is given) is empty; on success an account exactly when a name is given |
| PluginArguments.SaleRequestOf | android/src/main/kotlin/ar/com/orderfast/CloverSdkPlugin.kt:124-178 | succeeds exactly when the sixteen arguments cast; amounts default to 0, external id to empty, print flags to false; optional fields are set exactly when given; enums only when known |
| PluginArguments.SaleAmounts | android/src/main/kotlin/ar/com/orderfast/CloverSdkPlugin.kt:125-132 | the first four arguments, defaulted, on a fresh request |
| PluginArguments.SaleDetails | android/src/main/kotlin/ar/com/orderfast/CloverSdkPlugin.kt:124-178 | the next four arguments, with the print flags defaulted to false |
| PluginArguments.SaleCard | android/src/main/kotlin/ar/com/orderfast/CloverSdkPlugin.kt:124-178 | the signature, entry-method and card arguments, set only when given and known |
| PluginArguments.SaleOffline | android/src/main/kotlin/ar/com/orderfast/CloverSdkPlugin.kt:124-178 | the offline, tip-mode and restart arguments, set only when given and known |
| PluginArguments.SaleDefaults | android/src/main/kotlin/ar/com/orderfast/CloverSdkPlugin.kt:125-132 | with no arguments the sale has 0 amounts, an empty external id, both print flags off and nothing else |
| PluginArguments.PreAuthRequestOf | android/src/main/kotlin/ar/com/orderfast/CloverSdkPlugin.kt:188-206 | succeeds exactly when the arguments cast; amount 0 and external id empty by default; the note arguments are read but not used |
| PluginArguments.CapturePreAuthRequestOf | android/src/main/kotlin/ar/com/orderfast/CloverSdkPlugin.kt:221-230 | succeeds exactly when the arguments cast; amount and tip 0 and payment id empty by default |
| PluginArguments.TipAdjustAuthRequestOf | android/src/main/kotlin/ar/com/orderfast/CloverSdkPlugin.kt:240-249 | succeeds exactly when the arguments cast; the request's fields are the arguments with their defaults |
| PluginArguments.RefundPaymentRequestOf | android/src/main/kotlin/ar/com/orderfast/CloverSdkPlugin.kt:264-279 | succeeds exactly when the arguments cast; the request's fields are the arguments with their defaults, optional ones only when given |
| PluginArguments.ManualRefundRequestOf | android/src/main/kotlin/ar/com/orderfast/CloverSdkPlugin.kt:289-302 | succeeds exactly when the arguments cast; the request's fields are the arguments with their defaults |
| PluginArguments.VoidPaymentRequestOf | android/src/main/kotlin/ar/com/orderfast/CloverSdkPlugin.kt:317-330 | succeeds exactly when the arguments cast; the request's fields are the arguments with their defaults |
| PluginArguments.VoidPaymentRefundRequestOf | android/src/main/kotlin/ar/com/orderfast/CloverSdkPlugin.kt:340-351 | succeeds exactly when the arguments cast; the request's fields are the arguments with their defaults |
| PluginArguments.RetrievePaymentRequestOf | android/src/main/kotlin/ar/com/orderfast/CloverSdkPlugin.kt:366-371 | succeeds exactly when the argument casts; the external payment id defaults to empty |
| PluginArguments.CloseoutRequestOf | android/src/main/kotlin/ar/com/orderfast/CloverSdkPlugin.kt:455-462 | succeeds exactly when the arguments cast; the request's fields are the arguments with their defaults |
| PluginArguments.ReadCardDataRequestOf | android/src/main/kotlin/ar/com/orderfast/CloverSdkPlugin.kt:472-477 | succeeds exactly when the argument casts; entry methods only when given |
| CloverSdkPlugin.Confirmation | android/src/main/kotlin/ar/com/orderfast/CloverSdkPlugin.kt:102-105 | a success payload has exactly `success` = true and the message |
| CloverSdkPlugin.NameOf | android/src/main/kotlin/ar/com/orderfast/CloverSdkPlugin.kt:51-68 | each operation's channel name |
| CloverSdkPlugin.DispatchIsExact | android/src/main/kotlin/ar/com/orderfast/CloverSdkPlugin.kt:51-68 | a name selects an operation if and only if it is that operation's name; every other name is unknown |
| CloverSdkPlugin.SentMessage | android/src/main/kotlin/ar/com/orderfast/CloverSdkPlugin.kt:185-489 | each request operation's success message |
| CloverSdkPlugin.Wrap | android/src/main/kotlin/ar/com/orderfast/CloverSdkPlugin.kt:124-178 | a built request becomes its connector call; a cast failure passes through |
| CloverSdkPlugin.CallOf | android/src/main/kotlin/ar/com/orderfast/CloverSdkPlugin.kt:124-489 | a request operation builds a call exactly when each argument it reads has the type it is read as; the call is of that operation, and a failure names an argument that was given |
| CloverSdkPlugin.ChargeCallOf | android/src/main/kotlin/ar/com/orderfast/CloverSdkPlugin.kt:124-249 | sale, pre-authorisation, capture and tip adjustment each build their call exactly when their arguments cast, and the call carries the request their builder makes from the arguments |
| CloverSdkPlugin.ReversalCallOf | android/src/main/kotlin/ar/com/orderfast/CloverSdkPlugin.kt:264-351 | refund, manual refund, void and void-refund each build their call exactly when their arguments cast, and the call carries the request their builder makes |
| CloverSdkPlugin.QueryCallOf | android/src/main/kotlin/ar/com/orderfast/CloverSdkPlugin.kt:366-477 | retrieve payment, closeout and read card data build their call exactly when their arguments cast and carry the built request; retrieving pending payments always builds its call |
| CloverSdkPlugin.InitializeStep | android/src/main/kotlin/ar/com/orderfast/CloverSdkPlugin.kt:76-112 | succeeds exactly when the arguments cast, the account is accepted and the connector is built; a bad argument, an empty account name or type, or a throwing constructor answers `INIT_ERROR` and keeps the connector; on success the new connector replaces the old and `onInitialized` is sent |
| CloverSdkPlugin.DisconnectStep | android/src/main/kotlin/ar/com/orderfast/CloverSdkPlugin.kt:114-122 | a present connector's dispose is logged; the reply succeeds unless it throws; success forgets the connector, failure answers `DISCONNECT_ERROR` and keeps it |
| CloverSdkPlugin.SendStep | android/src/main/kotlin/ar/com/orderfast/CloverSdkPlugin.kt:180-185 | a bad argument answers `ERROR`; no connector answers `NOT_CONNECTED` and sends nothing; with a connector the built call is appended to the log; success exactly when the call is sent and completes |
| CloverSdkPlugin.ConfirmStep | android/src/main/kotlin/ar/com/orderfast/CloverSdkPlugin.kt:400-424 | `NO_PENDING_PAYMENT` exactly when no payment is pending (a challenge is not needed); success clears both slots; every failure keeps them |
| CloverSdkPlugin.RejectStep | android/src/main/kotlin/ar/com/orderfast/CloverSdkPlugin.kt:426-453 | `NO_PENDING_PAYMENT` exactly when the payment or the challenge is missing; success clears both; `NOT_CONNECTED` and `REJECT_ERROR` keep them |
| CloverSdkPlugin.ConfirmationRequestStep | android/src/main/kotlin/ar/com/orderfast/CloverSdkPlugin.kt:580-583 | the request's payment and its first challenge, or none, become pending; nothing else changes |
| CloverSdkPlugin.DetachStep | android/src/main/kotlin/ar/com/orderfast/CloverSdkPlugin.kt:833-835 | a present connector's dispose is logged, and the connector is forgotten unless that dispose throws |
| CloverSdkPlugin.NoConnectorNoRequest | android/src/main/kotlin/ar/com/orderfast/CloverSdkPlugin.kt:180-185 | with no connector no request operation succeeds or changes anything, and one whose arguments cast answers `NOT_CONNECTED` |
| CloverSdkPlugin.RequestSendsOnlyItsOwnCall | android/src/main/kotlin/ar/com/orderfast/CloverSdkPlugin.kt:124-489 | a request operation changes nothing but the call log, adds at most one call, of its own kind, and succeeds only when it sent one |
| CloverSdkPlugin.ConnectedRequestSendsItsCall | android/src/main/kotlin/ar/com/orderfast/CloverSdkPlugin.kt:124-489 | with a connector, a request whose arguments cast sends exactly the call built from them and succeeds exactly when it completes; otherwise `ERROR` with the failed argument and nothing sent |
| CloverSdkPlugin.SaleSendsBuiltRequest | android/src/main/kotlin/ar/com/orderfast/CloverSdkPlugin.kt:124-185 | `sale` with a connector and well-typed arguments sends the sale request its arguments build and replies `Solicitud de venta enviada` |
| CloverSdkPlugin.OnlyUnknownNamesAreNotImplemented | android/src/main/kotlin/ar/com/orderfast/CloverSdkPlugin.kt:68 | "not implemented" is answered exactly for unknown names, and changes nothing |
| CloverSdkPlugin.DisconnectIsIdempotent | android/src/main/kotlin/ar/com/orderfast/CloverSdkPlugin.kt:114-122 | once disconnect has succeeded, calling it again succeeds and changes nothing |
| CloverSdkPlugin.RejectAfterConfirmationRequest | android/src/main/kotlin/ar/com/orderfast/CloverSdkPlugin.kt:426-453 | after a confirmation request with challenges, reject sends the payment with the first challenge and a later confirm finds nothing pending |
| CloverSdkPlugin.ChallengeFreeRequest | android/src/main/kotlin/ar/com/orderfast/CloverSdkPlugin.kt:400-453 | a payment sent without challenges can be confirmed but not rejected |
| CloverSdkPlugin.IntAmountFailsSale | android/src/main/kotlin/ar/com/orderfast/CloverSdkPlugin.kt:47-74 | a sale whose amount arrives as an `Int` fails with `ERROR` before anything is sent |
| CloverSdkPlugin.EmptyAccountIsRefused | android/src/main/kotlin/ar/com/orderfast/CloverSdkPlugin.kt:78-87 | an empty account name, or an empty account type, answers `INIT_ERROR` and changes nothing |
| CloverSdkPlugin.CloverSdkPlugin.constructor | android/src/main/kotlin/ar/com/orderfast/CloverSdkPlugin.kt:35-38 | a new plugin has no connector, account or pending state |
| CloverSdkPlugin.CloverSdkPlugin.OnMethodCall | android/src/main/kotlin/ar/com/orderfast/CloverSdkPlugin.kt:47-74 | the reply and the new fields are those of the operation the name selects |
| CloverSdkPlugin.CloverSdkPlugin.InitializeConnector | android/src/main/kotlin/ar/com/orderfast/CloverSdkPlugin.kt:76-112 | the reply and the new fields are the initialize step |
| CloverSdkPlugin.CloverSdkPlugin.DisconnectConnector | android/src/main/kotlin/ar/com/orderfast/CloverSdkPlugin.kt:114-122 | the reply and the new fields are the disconnect step |
| CloverSdkPlugin.CloverSdkPlugin.Send | android/src/main/kotlin/ar/com/orderfast/CloverSdkPlugin.kt:180-185 | the reply and the new fields are the guarded send step |
| CloverSdkPlugin.CloverSdkPlugin.ConfirmPendingPayment | android/src/main/kotlin/ar/com/orderfast/CloverSdkPlugin.kt:400-424 | the reply and the new fields are the confirm step |
| CloverSdkPlugin.CloverSdkPlugin.RejectPendingPayment | android/src/main/kotlin/ar/com/orderfast/CloverSdkPlugin.kt:426-453 | the reply and the new fields are the reject step |
| CloverSdkPlugin.CloverSdkPlugin.OnConfirmPaymentRequest | android/src/main/kotlin/ar/com/orderfast/CloverSdkPlugin.kt:580-590 | the pending slots take the request's payment and first challenge |
| CloverSdkPlugin.CloverSdkPlugin.OnDetachedFromEngine | android/src/main/kotlin/ar/com/orderfast/CloverSdkPlugin.kt:833-838 | throws exactly when a present connector's dispose throws; the fields become the detach step |
| PaymentModels.PaymentResponseDefaults | android/src/main/kotlin/ar/com/orderfast/models/PaymentModels.kt:12-18 | a response given only `success` has no result, reason, message or payment |
| PaymentModels.PaymentInfoDefaults | android/src/main/kotlin/ar/com/orderfast/models/PaymentModels.kt:20-28 | a payment info given no arguments has every field null |
| PrintTicketModels.TicketItemDefaults | android/src/main/kotlin/ar/com/orderfast/models/PrintTicketModels.kt:20-27 | an item given only its required fields has no comment and no sub-selections |
| PrintTicketModels.FiscalInfoDefaults | android/src/main/kotlin/ar/com/orderfast/models/PrintTicketModels.kt:32-50 | fiscal information is for a final consumer by default and has no optional part |
| PrintTicketModels.NonFiscalTicketDefaults | android/src/main/kotlin/ar/com/orderfast/models/PrintTicketModels.kt:55-63 | a non-fiscal ticket has no take-away preference and no identifier by default, and the stock disclaimer |
| PrintTicketModels.FiscalTicketDefaults | android/src/main/kotlin/ar/com/orderfast/models/PrintTicketModels.kt:68-75 | a fiscal ticket has no order number and no receipt type by default |
| PrintTicketModels.PrintTicketResponseDefaults | android/src/main/kotlin/ar/com/orderfast/models/PrintTicketModels.kt:88-92 | a print response given only `success` has no message and no error |

## Left out

- **Android views.** The view-based ticket layout (`LinearLayout`, `TextView`, styling,
  measuring) and `ViewPrintJob.print` are not modelled. The `HandlerThread` that prints in the
  background is not modelled either. From the view path, only the CAE rule with width 48 and
  the separator character count are kept.
- **Currency formatting.** `formatCurrency` is floating point plus locale. It is the parameter
  `fmt`, and nothing is assumed about what it returns.
- **Vendor SDK behaviour.** The `PaymentConnector`, `CloverAccount` and the vendor request and
  response classes are not modelled. What their calls do on the terminal is outside the model.
  Only the calls made and whether they throw are kept.
- **`CloverAccount.getAccount` and the lock-task query.** Both are inputs.
- **Threads.** `runOnUiThread` blocks run at once.
- **Exception messages.** The text of the `ClassCastException` raised by a mistyped argument
  is not modelled: the reply records the argument's key instead.
- **Channel events.** Only `onInitialized` is logged. The other events the plugin sends to the
  app are not modelled: `onConfirmPaymentRequest`, the response callbacks and the device
  events. The vendor-object-to-map helpers they use are not modelled either. Among them is the
  sale-response relay, which reads `response.payment.externalPaymentId` without a null check
  (CloverSdkPlugin.kt:500).
- **Other listener callbacks.** The plugin's vendor listener callbacks other than
  `onConfirmPaymentRequest` only forward data to the app, and are not modelled.
- **Other services.** `ImmersiveModeService`, `ScreensaverService`, `QrPaymentService` and
  their models are not part of this model. They only set OS flags, change vendor settings or
  launch intents.
- **The example app.** Its `MainActivity` key handling is not part of this model.
- **Vendor enums.** Only two vendor enums are parsed from strings: `DataEntryLocation` and
  `TipMode`. The sets of their constant names are parameters of the plugin.
- **The connector constructor's two overloads.** They differ only in whether an application id
  is passed. Both are one record with an optional id.
- KioskService.KioskService.Enable: the window flags it adds are not modelled. A failure thrown
  inside the posted block is modelled as a failure of `enable` itself.
- KioskService.KioskService.Disable: the window flags it clears are not modelled. In the source
  an exception thrown inside the posted block does not reach `disable`, which still returns
  `true`; the model has no such exception and always leaves the kiosk idle after an accepted code.
- PaymentService.PaymentService.Initialize: the source rethrows when no account can be found or
  the connector constructor throws. The model returns `false` instead and leaves the state unchanged.
- PaymentService.PaymentService.Dispose: the source lets a throwing vendor `dispose` escape. The
  model returns `false` instead, with the call logged and no field cleared.
- **String lengths.** Kotlin's `String.length`, `substring` and `%-Ns`/`%Ns` padding count UTF-16
  code units. The model's strings are sequences of Unicode scalar values. The two agree on text
  in the Basic Multilingual Plane; a character outside it (an emoji, say) counts twice in the
  source and once in the model. The members below state their widths in scalar values.
- PrintService.TruncateDescription: lengths are scalar values, not UTF-16 units, so a
  supplementary character is never split in two as `substring(0, 22)` can do.
- PrintService.CenterText: the padding is computed from the scalar-value length.
- KotlinText.PadRight: pads to a width counted in scalar values.
- KotlinText.PadLeft: pads to a width counted in scalar values.
- CloverSdkPlugin.CloverSdkPlugin.OnMethodCall: `retrievePendingPayments` has no arguments to
  read. It is modelled like the other request operations, with a call that always builds.
