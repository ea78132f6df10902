# portfolio3.0: a verified model of the site's logic

The portfolio site is a Next.js application. Its logic is small but exact, and this project models it in Dafny:

- **The two e-mail route handlers.** `POST /api/send` serves the contact form and `POST /api/send-order` serves the store's orders. Each checks the request's required fields, then checks that the e-mail provider is configured. It then builds an e-mail, with the order handler composing a plain-text order message, and maps the provider's verdict to a JSON response.
- **The e-mail template** that renders those e-mails, modelled as the text sections it shows.
- **The three checkout flows:**
  - the store's three-step checkout dialog;
  - the store's checkout page;
  - the stand-alone checkout page that totals a cart saved in local storage.

  Each is a class whose handlers change the component's state. The cart store's items, the outcome of the awaited `fetch` and the firing of a delayed callback are inputs. Calls to the cart store, the order POST, alerts, router navigation and the `onClose` prop are appended to an `effects` log.
- **The store page:** its category filter, its cart badge and header, and the quantity and removal requests of the cart dialog.
- **The lookup tables and filters of the other pages:**
  - the navigation bar's keyboard shortcuts and collapse toggle;
  - the experience page's avatar gradients;
  - the about page's goal colours;
  - the stack page's skill bars;
  - the thoughts and projects pages' category filters, badges and links.

Each handler is verified against functions of the inputs and the old state. The properties the code promises are proved as lemmas about those functions, including:

- the guard runs before the configuration check;
- the order message splits back into one summary line per cart item;
- a total is the sum of price × quantity;
- the shortcut map shadows no item;
- each filter keeps list order and multiplicities.

Modules: `JsValues` (absent fields, truthiness, `||`, `${}`), `Text` (numbers as text, join/split, lower case), `Seqs` (`filter`), `CartItems`, `EmailTemplate`, `Mail`, `ContactRoute`, `OrderRoute`, `Effects`, `OrderForms`, `CheckoutModal`, `StoreCheckout`, `Checkout`, `Store`, `Navbar`, `Experience`, `About`, `Stack`, `Thoughts` and `Projects`.

## Model

| member | source | states |
|---|---|---|
| JsValues.Or | app/api/send-order/route.ts:48-52 | `f \|\| fallback` on a string-or-undefined is the field exactly when it is neither undefined nor empty, else the fallback |
| JsValues.Interpolate | app/api/send-order/route.ts:47 | `${f}` prints the string, or "undefined" for an absent field |
| JsValues.Lookup | app/experience/page.tsx:28 | `record[key]` is defined exactly for the record's keys and then holds that key's value |
| Text.IntToString | app/api/send-order/route.ts:37 | `${quantity}` is the decimal text of the number: for a non-negative number a digit string reading back as it, for a negative one '-' followed by the digits of its magnitude |
| Text.DigitsValueOfNatToString | app/store/page.tsx:187 | reading back the decimal text of a number gives the number |
| Text.SplitJoin | app/api/send-order/route.ts:38 | `join('\n')` of lines without newlines splits back into exactly those lines |
| Text.Lower | components/Navbar.tsx:101 | `toLowerCase` keeps the length and lowers every ASCII capital, character by character |
| Text.LowerIdempotent | components/Navbar.tsx:101 | lower-casing a lower-cased key changes nothing |
| Text.RemoveFirst | app/checkout/page.tsx:52 | `replace('$', '')` leaves a string without '$' unchanged and otherwise drops exactly one character |
| Text.RemoveFirstAt | app/checkout/page.tsx:52 | the character `replace('$', '')` drops is the first '$': the text before it and all the text after it are kept |
| Seqs.Filter | app/store/page.tsx:131 | `filter` keeps exactly the elements that pass the test and never lengthens the list |
| Seqs.FilterIsSubsequence | app/projects/page.tsx:100-102 | a filtered list is a subsequence of the list, order kept |
| Seqs.FilterCounts | app/store/page.tsx:131 | each passing element occurs in the result as often as in the list, and no other element occurs |
| CartItems.ParsePrice | app/checkout/page.tsx:52 | `parseFloat(price.replace('$', ''))`: the first '$' dropped, the rest read as a whole number when it is a non-empty digit string, NaN (None) otherwise; its values are fixed by DollarPrice and ParseFormattedPrice |
| CartItems.DollarPrice | app/checkout/page.tsx:52 | `parseFloat` of "$" followed by digits is the digits' value |
| CartItems.ParseFormattedPrice | app/store/page.tsx:32-77 | a price written as the catalogue writes it reads back as its amount |
| EmailTemplate.Render | components/EmailTemplate.tsx:12-46 | with `formType` defaulted to 'contact', the heading is the contact heading iff the type is 'contact' (else the order heading) and the body title is "Message:" iff it is; the name line is firstName and lastName or ''; the e-mail line is the given address; the service line is present iff service is non-empty; the message is verbatim; the footer is the fixed note and a reply line naming firstName |
| Mail.Configured | app/api/send/route.ts:7 | the provider client exists, and so the handlers may send, exactly when RESEND_API_KEY is set and non-empty |
| Mail.Dispatch | app/api/send/route.ts:24-43 | the e-mail is handed over; a provider error gives 400 with the handler's failure text, a throw 500, delivery 200 with the handler's success text and the provider's data, each iff |
| ContactRoute.HasRequiredFields | app/api/send/route.ts:14 | the guard: name, e-mail and message are each present and non-empty; service is not required |
| ContactRoute.ContactEmail | app/api/send/route.ts:24-35 | the sender is RESEND_FROM_EMAIL or the default, reply-to is the submitter's e-mail, recipients RESEND_TO_EMAIL or the placeholder, subject the contact heading iff `formType` is absent or 'contact' and the order heading otherwise; the template gets `name` as firstName, no lastName, the submitter's e-mail, service and message unchanged |
| ContactRoute.Post | app/api/send/route.ts:9-48 | an unparsable body gives 500; a missing name, e-mail or message gives 400 "Missing required fields" with nothing sent; a complete request with no API key gives 500 "Email service not configured"; an e-mail is sent iff the request is complete and the provider configured; then 400 "Failed to send email", 200 "Email sent successfully" or 500, per the provider |
| ContactRoute.GuardBeforeConfiguration | app/api/send/route.ts:14-22 | an incomplete request gets 400 whatever the environment; "not configured" needs a complete request |
| ContactRoute.SubjectIsTemplateHeading | app/api/send/route.ts:28 | the subject equals the heading the template renders for the same `formType` |
| OrderRoute.HasRequiredFields | app/api/send-order/route.ts:31 | the guard: firstName, lastName and e-mail present and non-empty, and a cart that is present and non-empty |
| OrderRoute.SummaryLines | app/api/send-order/route.ts:36-38 | one summary line per cart item, in cart order, each `title - Quantity: q - Price: p` |
| OrderRoute.DeliveryLines | app/api/send-order/route.ts:43-53 | the lines after the summary: the total, the delivery block with `deliveryEmail \|\| email` and the phone and notes fallbacks, and the closing indentation; OrderMessageLines proves they are what the message splits into |
| OrderRoute.MessageLines | app/api/send-order/route.ts:40-53 | the lines of the template literal: a blank line, the title, one summary line per item, then DeliveryLines |
| OrderRoute.OrderMessage | app/api/send-order/route.ts:40-53 | the template literal as MessageLines joined with newlines; MessageEmbedsSummary and OrderMessageLines state what it contains |
| OrderRoute.OrderEmail | app/api/send-order/route.ts:61-74 | the sender is RESEND_FROM_EMAIL or the default, reply-to is the buyer's e-mail, subject `New Order from <firstName> <lastName>`; the template gets the buyer's names and e-mail, formType 'order', service = platform, and the composed message |
| OrderRoute.Post | app/api/send-order/route.ts:16-86 | an unparsable body gives 500; missing firstName, lastName or e-mail, or an absent or empty cart, gives 400 with nothing sent; a complete request with no API key gives 500 "Email service not configured"; an e-mail is sent iff the request is complete and the provider configured; then 400 "Failed to send order email", 200 "Order email sent successfully" or 500, per the provider |
| OrderRoute.GuardBeforeConfiguration | app/api/send-order/route.ts:31-59 | invalid input gets 400 whatever the environment; "not configured" needs a complete request |
| OrderRoute.OrderTemplateRendering | app/api/send-order/route.ts:66-73 | the order e-mail renders with the order heading and "Order Details:", the message verbatim, a platform line iff a platform was given, and the full name |
| OrderRoute.MessageEmbedsSummary | app/api/send-order/route.ts:40-53 | the message is a newline, the title, the newline-joined summary and the delivery block |
| OrderRoute.SummaryLinesSingle | app/api/send-order/route.ts:37 | with titles and prices free of newlines, no summary line holds one |
| OrderRoute.OrderMessageLines | app/api/send-order/route.ts:40-53 | split at its newlines, the message is the title, one line per cart item in cart order, the total, the delivery e-mail (`deliveryEmail` or else `email`), the phone or "Not provided" and the notes or "None" |
| OrderRoute.NoNewlineInNumber | app/api/send-order/route.ts:37 | a printed quantity holds no newline |
| Effects.OutcomeOf | components/CheckoutModal.tsx:86 | `response.ok` is a 2xx status; a route's error JSON reaches the page as the `error` field |
| OrderForms.WithField | components/CheckoutModal.tsx:41-46 | `handleChange` sets the named field and leaves every other field unchanged |
| OrderForms.Payload | app/store/checkout/page.tsx:102-111 | the payload carries the seven form fields unchanged, the cart snapshot and the total text |
| OrderForms.LitIndicatorsPrefix | app/store/checkout/page.tsx:189 | the lit indicators (`step >= i`) form a prefix ending at the current step, and advancing a step lights exactly the new step's indicator |
| OrderForms.PayloadGuard | app/api/send-order/route.ts:31-33 | the route accepts a payload iff the names and e-mail are non-empty and the cart is non-empty |
| OrderForms.CompletePayloadOutcome | app/api/send-order/route.ts:56-81 | a complete payload is never refused as incomplete; once configured it is sent, and the component sees ok iff the provider delivers |
| CheckoutModal.StepsStayInRange | components/CheckoutModal.tsx:48-58 | Next and Back keep the step within 1..3; Next is a no-op only at 3, Back only at 1 |
| CheckoutModal.NextThenBack | components/CheckoutModal.tsx:48-58 | from step 1 or 2, Next then Back returns to the step; from 2 or 3, Back then Next does |
| CheckoutModal.ContinueDisabled | components/CheckoutModal.tsx:174 | Continue is disabled while the e-mail or either name is empty; ContinueEnablesOrder ties it to the route's guard |
| CheckoutModal.ReviewDisabled | components/CheckoutModal.tsx:267 | Review Order is disabled while the delivery e-mail is empty; a step-3 dialog's Valid invariant holds only with it enabled |
| CheckoutModal.PlaceOrderDisabled | components/CheckoutModal.tsx:346 | Place Order is disabled while submitting or while the cart is empty |
| CheckoutModal.ContinueEnablesOrder | components/CheckoutModal.tsx:174 | Continue and Place Order both enabled iff the route will accept the payload |
| CheckoutModal.StepInputs | components/CheckoutModal.tsx:132-248 | step 1 renders the e-mail and name inputs, step 2 the delivery e-mail, the review none; no step renders preferred contact |
| CheckoutModal.ViewOf | components/CheckoutModal.tsx:432-440 | closed shows nothing; the success view overrides the step; then step 1 and step 2 their own views and any other step the review, each iff |
| CheckoutModal.Title | components/CheckoutModal.tsx:418 | the title is "Success" iff the success view shows |
| CheckoutModal.CheckoutModal.constructor | components/CheckoutModal.tsx:27-39 | step 1, not submitting, no success view, the initial form (platform and preferred contact 'email', all else '') |
| CheckoutModal.CheckoutModal.HandleChange | components/CheckoutModal.tsx:41-46 | the form gets the new field value; nothing else changes; the step invariant holds |
| CheckoutModal.CheckoutModal.HandleNext | components/CheckoutModal.tsx:48-52 | the step advances only below 3; a step is reached only with the earlier steps' required fields filled |
| CheckoutModal.CheckoutModal.HandleBack | components/CheckoutModal.tsx:54-58 | the step retreats only above 1; nothing else changes |
| CheckoutModal.CheckoutModal.BeginSubmit | components/CheckoutModal.tsx:60-85 | from the review step with no order pending: an empty cart sends nothing and changes nothing; otherwise submitting is set and the payload posted, one the route accepts |
| CheckoutModal.CheckoutModal.SettleSubmit | components/CheckoutModal.tsx:86-109 | ok shows the success view, clears the cart at once and schedules the reset; otherwise step, form and view stay; submitting ends false always |
| CheckoutModal.CheckoutModal.ResetTimerFires | components/CheckoutModal.tsx:89-103 | the delayed reset returns to step 1 and the initial form, hides the success view and closes the dialog |
| CheckoutModal.CheckoutModal.Close | components/CheckoutModal.tsx:392 | closing calls `onClose` and keeps the dialog's state |
| StoreCheckout.ValidateCart | app/store/checkout/page.tsx:77-82 | false iff the cart items are absent or empty |
| StoreCheckout.ValidCartPassesGuard | app/store/checkout/page.tsx:77-111 | with the names and e-mail filled, a cart passes `validateCart` iff the route accepts the order |
| StoreCheckout.SubmitLabel | app/store/checkout/page.tsx:535 | "Complete Order" iff step 3, otherwise "Continue" |
| StoreCheckout.PreviousOffered | app/store/checkout/page.tsx:522 | the Previous button is rendered above the first step only; it is the precondition of StoreCheckoutPage.Previous |
| StoreCheckout.ProgressWidth | app/store/checkout/page.tsx:173-180 | a third of the bar per step, full from step 3 on |
| StoreCheckout.ProgressMatchesIndicators | app/store/checkout/page.tsx:173-189 | the progress bar and the step indicators agree: indicator i is lit iff the bar covers at least i thirds, and the bar grows with every step |
| StoreCheckout.StoreCheckoutPage.constructor | app/store/checkout/page.tsx:55-67 | step 1, the initial form, both modals hidden |
| StoreCheckout.StoreCheckoutPage.HandleChange | app/store/checkout/page.tsx:70-75 | the form gets the new field value; nothing else changes |
| StoreCheckout.StoreCheckoutPage.HandleSubmit | app/store/checkout/page.tsx:84-141 | below step 3 the step advances without reading the cart; at 3 an empty cart shows the empty-cart modal and sends nothing; otherwise the order is posted: ok shows the completion modal, resets the form to its initial value, schedules the clear and keeps the step; not ok keeps the form and alerts the server's error or "Unknown error"; a throw alerts the retry text |
| StoreCheckout.StoreCheckoutPage.Previous | app/store/checkout/page.tsx:522-528 | offered only above step 1, it goes back one step and changes nothing else |
| StoreCheckout.StoreCheckoutPage.ClearTimerFires | app/store/checkout/page.tsx:127-129 | the delayed callback clears the cart |
| StoreCheckout.StoreCheckoutPage.CloseCompletionModal | app/store/checkout/page.tsx:599 | hides the completion modal and navigates to the store |
| StoreCheckout.StoreCheckoutPage.CloseEmptyCartModal | app/store/checkout/page.tsx:650 | hides the empty-cart modal and navigates to the store |
| Checkout.LineTotal | app/checkout/page.tsx:52-53 | a line's amount is price × quantity, NaN (None) iff the price does not parse |
| Checkout.AddTotals | app/checkout/page.tsx:53 | a sum is NaN iff either side is |
| Checkout.CalculateTotal | app/checkout/page.tsx:50-55 | an empty cart totals 0; with no negative quantity a total is never negative |
| Checkout.TotalConcat | app/checkout/page.tsx:50-55 | the total of two carts put together is the sum of their totals |
| Checkout.TotalIsSumOfLines | app/checkout/page.tsx:50-55 | the total is the sum of price × quantity over the lines when every price parses, and NaN otherwise |
| Checkout.FormatTotal | app/checkout/page.tsx:77 | `toFixed(2)` of a whole-dollar total is its decimal text and ".00"; NaN prints "NaN" |
| Checkout.SampleTotal | app/checkout/page.tsx:50-55 | two $50 items and one $100 item total "200.00" |
| Checkout.WithPageField | app/checkout/page.tsx:57-62 | `handleInputChange` sets the named field and leaves the others unchanged |
| Checkout.CheckoutPayload | app/checkout/page.tsx:74-78 | the payload is the form fields unchanged, the cart and its total as printed |
| Checkout.ConfirmationAddress | app/checkout/page.tsx:115 | `deliveryEmail` if non-empty, else `email` |
| Checkout.ConfirmationMatchesOrder | app/checkout/page.tsx:115 | the route accepts a non-empty cart's order iff names and e-mail are filled, and then the confirmation names the delivery address the e-mail gives |
| Checkout.ViewOf | app/checkout/page.tsx:96-128 | the placed-order view takes precedence over the empty-cart view; the form shows iff no order is placed and the cart is non-empty |
| Checkout.CheckoutPage.constructor | app/checkout/page.tsx:29-40 | an empty cart, the empty form, not submitting, no order placed |
| Checkout.CheckoutPage.LoadSavedCart | app/checkout/page.tsx:42-48 | a saved cart replaces the empty one; none leaves it |
| Checkout.CheckoutPage.HandleInputChange | app/checkout/page.tsx:57-62 | the form gets the new field value; nothing else changes |
| Checkout.CheckoutPage.BeginSubmit | app/checkout/page.tsx:64-79 | from the form view, sets submitting and posts the payload of the current form and cart |
| Checkout.CheckoutPage.SettleSubmit | app/checkout/page.tsx:81-93 | ok places the order and removes the stored cart but keeps the in-memory cart; not ok alerts the server error or "Unknown error" and leaves the order unplaced (the invariant that a placed order is never still submitting means no alert can follow the confirmation); a throw alerts the retry text; submitting ends false always |
| Store.FilteredProducts | app/store/page.tsx:128-131 | 'all' is the list unchanged; any other category gives exactly the products of that category |
| Store.FilteredInOrder | app/store/page.tsx:128-131 | the filtered list keeps catalogue order and each product's multiplicity |
| Store.WebsitesShown | app/store/page.tsx:32-77 | Websites shows products 1 and 3 |
| Store.TemplatesShown | app/store/page.tsx:32-77 | Templates shows product 2 only |
| Store.MobileShown | app/store/page.tsx:32-77 | Mobiles shows product 4 only |
| Store.EveryCategoryShowsProducts | app/store/page.tsx:25-131 | every button of the category bar filters the catalogue to at least one product |
| Store.CatalogueIds | app/store/page.tsx:32-77 | the catalogue ids are 1..4 and unique |
| Store.CatalogueCategories | app/store/page.tsx:25-30 | every product's category has a button |
| Store.CataloguePrices | app/store/page.tsx:32-77 | the catalogue's prices read as 50, 75, 100 and 150 dollars |
| Store.UnitCount | app/store/page.tsx:158 | the badge's `reduce` over the quantities: 0 for an empty cart and never negative when no quantity is |
| Store.UnitsAtLeastLines | app/store/page.tsx:156-187 | with quantities of at least one, there are at least as many units as lines, and exactly as many iff every quantity is one |
| Store.CartBadge | app/store/page.tsx:156-158 | the badge shows iff the cart is non-empty and then holds the sum of the quantities |
| Store.CartHeader | app/store/page.tsx:187 | `Cart (n)` where n reads back as the number of lines, not units |
| Store.CartFooterShown | app/store/page.tsx:258 | the total and the checkout button appear only below a non-empty cart; the precondition of StorePage.ProceedToCheckout |
| Store.StorePage.constructor | app/store/page.tsx:125-126 | category 'all' and the dialog closed |
| Store.StorePage.Shown | app/store/page.tsx:128-131 | the grid shows the whole catalogue under 'all', and otherwise exactly the catalogue products of the active category; it is never empty, because the active category is always one of the bar's buttons |
| Store.StorePage.SelectCategory | app/store/page.tsx:390 | a category button makes its id active |
| Store.StorePage.AddToCart | app/store/page.tsx:340-343 | asks the cart store to add the card's product |
| Store.StorePage.OpenCart | app/store/page.tsx:152 | opens the dialog |
| Store.StorePage.CloseCart | app/store/page.tsx:174 | closes the dialog |
| Store.StorePage.DecreaseQuantity | app/store/page.tsx:217-223 | asks for quantity − 1 for the same id |
| Store.StorePage.IncreaseQuantity | app/store/page.tsx:228-235 | asks for quantity + 1 for the same id |
| Store.StorePage.RemoveItem | app/store/page.tsx:244 | asks for removal of that id |
| Store.StorePage.ProceedToCheckout | app/store/page.tsx:258-276 | offered only for a non-empty cart; closes the dialog and navigates to the checkout |
| Navbar.ShortcutEntries | components/Navbar.tsx:72-78 | one `[id, path]` entry per item, in item order |
| Navbar.BuildMap | components/Navbar.tsx:72-78 | the map's keys are exactly the entries' keys |
| Navbar.BuildMapDistinct | components/Navbar.tsx:72-78 | with distinct keys, every key looks up its own entry's path and the map has one key per entry |
| Navbar.ShortcutEntriesValue | components/Navbar.tsx:50-78 | the thirteen entries are '1'..'8' for the menu and resources, then 'c', 'l', 'g', 't', 'i' |
| Navbar.ShortcutMap | components/Navbar.tsx:72-78 | `new Map` of the thirteen entries; ShortcutKeysDistinct and ShortcutLookups prove its size and that no item is shadowed |
| Navbar.ShortcutKeysDistinct | components/Navbar.tsx:50-78 | the thirteen ids are distinct and the map has thirteen keys |
| Navbar.ShortcutLookups | components/Navbar.tsx:50-78 | no item is shadowed: each id looks up its own item's path |
| Navbar.ItemKinds | components/Navbar.tsx:50-70 | '1'..'8' and 'c' lead to internal paths; 'l', 'g', 't', 'i' to external URLs |
| Navbar.OneCharacterIds | components/Navbar.tsx:50-70 | every id is a single character |
| Navbar.KeyPress | components/Navbar.tsx:96-111 | nothing in an INPUT or TEXTAREA; otherwise the lower-cased key's non-empty path opens a tab iff it starts with "http" and otherwise navigates; an unmapped key does nothing |
| Navbar.KeyCaseInsensitive | components/Navbar.tsx:101 | a key acts exactly as its lower case does |
| Navbar.ItemKeyPress | components/Navbar.tsx:96-111 | outside a text field, an item's key in either case navigates to its path for the nine internal items and opens the URL for the four external ones |
| Navbar.UnmappedKeyPress | components/Navbar.tsx:102-104 | a key that is no item's id does nothing |
| Navbar.UpperCaseShortcut | components/Navbar.tsx:101-108 | 'C' navigates to the contact page |
| Navbar.LongKeyIgnored | components/Navbar.tsx:101-104 | a key name longer than one character, such as Enter, does nothing |
| Navbar.Navbar.constructor | components/Navbar.tsx:43 | the bar starts expanded |
| Navbar.Navbar.HandleCollapse | components/Navbar.tsx:117-120 | flips the flag and reports the new value, so two toggles restore the original |
| Experience.GradientByLetter | app/experience/page.tsx:21-29 | a letter of the table gets its gradient, any other string the grey default |
| Experience.GradientsDistinct | app/experience/page.tsx:22-28 | the four letters have four distinct gradients, none grey; 'a' and '' get the default |
| Experience.CharAt0 | app/experience/page.tsx:87 | `charAt(0)` is the first character, or '' for an empty name |
| Experience.AvatarGradient | app/experience/page.tsx:87-88 | an empty name gets the default; otherwise its first character's gradient |
| Experience.CompaniesHaveGradients | app/experience/page.tsx:31-80 | every listed company starts with a letter of the table, and no two share a gradient |
| About.StatusColor | app/about/page.tsx:49-59 | a listed status gets its table entry, any other the grey default |
| About.StatusColorClasses | app/about/page.tsx:50-57 | 'Planning' looks like 'Just Started' and 'Active' like 'Almost There'; the four colours differ and none is grey |
| About.UnknownStatusGrey | app/about/page.tsx:58 | an unknown status, or one capitalised differently, is grey |
| About.GoalsColoured | app/about/page.tsx:92-97 | every goal's status is a key of the table, so no goal is grey |
| Stack.BarWidth | app/stack/page.tsx:243-246 | 100 iff Advanced, 75 iff Intermediate, 50 iff Beginner, 25 iff Learning or Expert |
| Stack.BarColor | app/stack/page.tsx:236-241 | Advanced green, Intermediate blue, Beginner yellow, otherwise purple |
| Stack.WidthMonotone | app/stack/page.tsx:243-246 | the width increases strictly over Beginner, Intermediate and Advanced |
| Stack.ExpertDrawnAsLearning | app/stack/page.tsx:236-246 | Expert, which the level type permits, is drawn exactly as Learning, below Beginner |
| Thoughts.FilteredThoughts | app/thoughts/page.tsx:137-139 | 'all' shows every thought; any other category exactly the matching ones |
| Thoughts.FilteredThoughtsInOrder | app/thoughts/page.tsx:137-139 | the filtered list keeps list order and each thought's multiplicity |
| Thoughts.NoneOfCategory | app/thoughts/page.tsx:137-139 | a category no thought has shows an empty list |
| Thoughts.CategoryInMiddle | app/thoughts/page.tsx:137-139 | a category held by one stretch of the list shows that stretch |
| Thoughts.CategoryAtEnds | app/thoughts/page.tsx:137-139 | a category held by the two ends of the list shows both ends |
| Thoughts.OnlyUnderAll | app/thoughts/page.tsx:137-139 | a thought whose category has no button shows only under 'all' |
| Thoughts.LearningEmpty | app/thoughts/page.tsx:92-97 | the 'learning' button shows an empty list |
| Thoughts.Thought3OnlyUnderAll | app/thoughts/page.tsx:50 | thought 3, of category 'technical', shows only under 'all' |
| Thoughts.ProjectsContents | app/thoughts/page.tsx:23-97 | the 'projects' button shows thoughts 4 and 5 |
| Thoughts.CareerContents | app/thoughts/page.tsx:23-97 | the 'career' button shows thoughts 1, 2 and 6 |
| Thoughts.StatusBadge | app/thoughts/page.tsx:202-206 | blue iff 'In Progress', yellow iff 'Planning', green otherwise |
| Thoughts.NoGreenBadge | app/thoughts/page.tsx:23-90 | no listed thought gets a green badge |
| Projects.FilteredProjects | app/projects/page.tsx:100-102 | 'all' shows every project; 'web' and 'mobile' exactly the matching ones |
| Projects.FilteredProjectsInOrder | app/projects/page.tsx:100-102 | each filtered list is a subsequence of the list with each project's multiplicity |
| Projects.WebMobilePartition | app/projects/page.tsx:100-102 | the web and mobile lists partition the 'all' list |
| Projects.OneCategoryPrefix | app/projects/page.tsx:100-102 | a list of mobile projects followed by web ones splits at the boundary |
| Projects.CategoryContents | app/projects/page.tsx:23-87 | 'mobile' shows the first four projects and 'web' the last three |
| Projects.GitHubLink | app/projects/page.tsx:174 | the repository link is rendered iff `github` is non-empty, to that address |
| Projects.LiveLink | app/projects/page.tsx:186 | the live-site link is rendered iff `live` is non-empty, to that address |
| Projects.ListedLinks | app/projects/page.tsx:23-87 | every project but the first links a repository; only the fifth and sixth link a live site |

## Left out

- The route handlers check only that the required fields are present and non-empty. They treat the provider as configured when the API key is set, and fall back to placeholder sender and recipient addresses when those are unset.
- The Resend provider, `NextResponse`, `request.json()` and `fetch` are inputs:
  - the environment's API key, addresses and send verdict (`Mail.Env`);
  - a body that failed to parse (`None`);
  - the fetch's outcome (`FetchOutcome`).
- The cart store (`contexts/CartContext`) is not part of this model. Its items and its total are inputs, and calls to it are logged as `CartCall` values with no asserted meaning.
- Checkout.FormatTotal: prints only whole-dollar totals, as their decimal text with ".00". Fractional and rounded amounts of `toFixed(2)` are not modelled, because every catalogue price is whole dollars.
- CartItems.ParsePrice: reads only "$" followed by digits; any other text reads as NaN. `parseFloat` would also read a leading number followed by other text, or a fraction, but no catalogue price looks like that.
- Text.Lower: lower-cases ASCII letters only. The other case mappings of `toLowerCase` are not modelled.
- `localStorage` and `JSON.parse`: the stored cart is an `Option<seq<CartItem>>` input of `Checkout.CheckoutPage.LoadSavedCart`. Malformed JSON, which throws in the page, is not modelled.
- `setTimeout` delays are pending-callback counters; the callback is a separate step. Wall-clock timing is not modelled.
- StoreCheckout.StoreCheckoutPage.HandleSubmit: takes the fetch outcome as an input and runs as one step, so other events during the awaited fetch are not modelled there. The modal and the stand-alone checkout split their handler into a begin step and a settle step.
- Handler preconditions say which control the current view renders and enables, for example Back from step 2 or 3, the row buttons of an open cart, and Place Order only while no order is pending. Place Order's empty-cart disabling is not a precondition, because `handleSubmit` checks the cart again itself. The HTML `required` attribute and its browser-side blocking are not modelled.
- `Navbar`: the effect that re-reports the collapse flag to `onCollapse` after every render (components/Navbar.tsx:91-93) is not modelled, and neither is the mobile layout. `KeyPress` takes the target's tag name and the key as inputs; `window.open` and `router.push` are its results.
- `OrderRoute.OrderMessage` is the template literal written as the join of its lines; its indentation is kept only in the final line of four spaces.
- The dialog's review lines that repeat amounts, icons, labels, animations, particles and fractional star ratings are presentation only.
- JSON fields of a type other than string (a number in `total`, say) are not modelled; every field is a string or absent.
- Lookups on records (`Lookup`) do not model keys inherited from `Object.prototype`, such as 'constructor'.
- Stack: the skill data itself is not listed; only the level-to-bar mapping is.
- Thoughts and Projects carry only the fields the filters, badges and links read.
- The contact and services pages, the layouts, the language switcher, translations and the explore page are not part of this model.
