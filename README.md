# Bakery admin dashboard — a Dafny model

This project models the client-side logic of a bakery shop's admin
dashboard, a Next.js application. The model covers:

- the route guard that keeps signed-out visitors off the dashboard;
- the chat client's request building and reply unwrapping;
- the conversation list and message pane, and the stand-alone message thread;
- the product and category editors and their list pages;
- the order, delivered-order and customer lists, with their searches, menus and pagers;
- the overview's statistics;
- the three-step password recovery and the header's change-password dialog;
- the sidebar's active-item rule.

Each source file becomes one Dafny module, named after its screen or library: `Orders` for `app/dashboard/orders/page.tsx`, `ChatApi` for `lib/chat-api.ts`, and so on. Local helper
modules hold the JavaScript semantics the screens rely on:

- `Wrappers`: option and result types.
- `Strings`: `trim`, ASCII `toLowerCase`, `includes`, `startsWith`, `slice(-n)` and number-to-string conversion.
- `Seqs`: `filter`, `map` and `reduce` sums.
- `Records`: plain objects with string values, property assignment and object spread.
- `Types`: the entities of `lib/types.ts`.
- `Paging`: the shared pager arithmetic.

Pure code is written as functions with lemmas about them. A screen whose
handlers update React state becomes a `class`:

- its `useState` values are the class's fields;
- each handler is a method whose contract gives the whole new state in terms of the old one;
- the value-level rules the handlers use are functions, with their properties proved as lemmas.

Some things the model cannot see are parameters instead:

- the session token;
- the HTTP status and the parsed body;
- whether a backend call resolves or rejects, and the server's message;
- the clock's time stamp;
- the data URL a `FileReader` produces.

## Model

| member | source | states |
|---|---|---|
| Middleware.Decide | middleware.ts:10-23 | Redirect to /auth/login exactly for a /dashboard path without a token. Redirect to /dashboard exactly for an /auth path with a token. Let through otherwise, with the protected-page check first. |
| Middleware.Handle | middleware.ts:26-28 | A path outside the matcher always passes. A matched path gets the guard's decision. |
| Middleware.MatchedPrefixesDisjoint | middleware.ts:10-11 | Every matched path is under exactly one of /dashboard and /auth. |
| Middleware.PassesIff | middleware.ts:14-23 | On a matched path a request passes iff it is signed in on a dashboard path, or signed out on an auth path. |
| Middleware.RedirectSettles | middleware.ts:14-21 | Following either redirect with the same session is let through, so the guard never loops. |
| Middleware.GuardExamples | middleware.ts:10-28 | The guard's answers on /dashboard/orders and /auth/login, signed in and signed out, and on / which is unmatched. |
| ChatApi.ErrorText | lib/chat-api.ts:57-64 | A status failure reads "Request failed with status " followed by the number. An envelope failure carries its own message. |
| ChatApi.Unwrap | lib/chat-api.ts:57-65 | A non-2xx status rejects with that status before the body is read. An envelope rejection never has an empty message. |
| ChatApi.UnwrapOkIff | lib/chat-api.ts:57-65 | A call resolves iff the status is 2xx, the body parsed, and success is true. It then yields `data` unchanged. |
| ChatApi.UnwrapEnvelopeFailure | lib/chat-api.ts:64 | success=false on a 2xx status rejects with the envelope's message, or with "Request failed" when that message is empty. |
| ChatApi.UnwrapIgnoresBodyOnBadStatus | lib/chat-api.ts:57-61 | Whatever the body, a bad status rejects with the status error text. |
| ChatApi.AuthHeader | lib/chat-api.ts:51 | A truthy token gives `Authorization: Bearer <token>`. No token, or an empty one, gives no header. |
| ChatApi.FetchRequest | lib/chat-api.ts:48-55 | The sent request keeps the URL and body, uses credentials "include", and uses the caller's method or else GET. |
| ChatApi.FetchHeaders | lib/chat-api.ts:50-53 | Each header comes from the caller when the caller sets it, else the bearer header when a token exists, else it is absent. |
| ChatApi.ListConversations | lib/chat-api.ts:69-71 | A request to the base URL plus "/conversations" that sets no method, no headers and no body. |
| ChatApi.GetOrCreateConversation | lib/chat-api.ts:73-78 | A POST with a JSON Content-Type whose body has exactly the key userId, holding the given id. |
| ChatApi.MessagesParams | lib/chat-api.ts:81-82 | The query has the keys page then limit, holding the given numbers or the defaults 1 and 50. |
| ChatApi.QueryString | lib/chat-api.ts:82-83 | The serialised query is empty iff there are no parameters, and otherwise starts with the first parameter as name=value. |
| ChatApi.QueryStringPair | lib/chat-api.ts:82-83 | Two parameters serialise to both name=value pairs, in order, joined by a single "&". |
| ChatApi.GetMessages | lib/chat-api.ts:81-84 | The URL is exactly the conversation's messages URL followed by "?page=" with the given page or 1, then "&limit=" with the given limit or 50. The request sets no method, no headers and no body. |
| ChatApi.ReadsAreBareGets | lib/chat-api.ts:48-55 | Listing conversations and reading messages go out as GETs with no body, whose only header is the bearer header when there is a token. |
| ChatApi.GetMessagesDefaults | lib/chat-api.ts:81-83 | Without page or limit the URL ends in "/messages/<id>?page=1&limit=50". |
| ChatApi.DefaultMessagesParams | lib/chat-api.ts:81-82 | The default parameters are page "1" and limit "50". |
| ChatApi.DefaultQueryString | lib/chat-api.ts:82-83 | The default parameters serialise to "page=1&limit=50". |
| ChatApi.PageReadsBack | lib/chat-api.ts:82 | A non-negative page number sent in the query parses back to itself. |
| ChatApi.BuildSendBody | lib/chat-api.ts:86-102 | The body is multipart iff a file is attached. A form holds receiverId, text and attachment in that order, with no headers. Otherwise the body is JSON with exactly receiverId and text, and the only header is Content-Type application/json. |
| ChatApi.SendMessageUrl | lib/chat-api.ts:104 | The URL is the chat base plus "/messages/", followed by exactly the conversation id. |
| ChatApi.FirstMessage | lib/chat-api.ts:104-111 | A rejection passes through. Otherwise the result is the first message, absent exactly when the array is empty. |
| ChatApi.MarkRead | lib/chat-api.ts:114-118 | A POST to the send URL plus "/read", with no body and no headers of its own. |
| ChatSidebar.Filtered | components/chat/ChatSidebar.tsx:28-37 | An empty search returns the list itself. Any other search never lengthens it. |
| ChatSidebar.FilteredIsSubseq | components/chat/ChatSidebar.tsx:31-36 | The result is an order-preserving sub-sequence of the customers. |
| ChatSidebar.EmptyQueryKeepsAll | components/chat/ChatSidebar.tsx:29-30 | The early return for an empty query agrees with filtering by "": every customer would be kept anyway. |
| ChatSidebar.FilteredKeepsIff | components/chat/ChatSidebar.tsx:31-36 | A listed customer is shown iff the lowercased query occurs in its lowercased name, email or preview. A missing preview reads as "". |
| ChatSidebar.FilteredSound | components/chat/ChatSidebar.tsx:31-36 | Every shown customer is one of the list's and matches the query. |
| ChatSidebar.NoConversationsIff | components/chat/ChatSidebar.tsx:67 | "No conversations found" shows iff no customer matches. |
| ChatSidebar.OnClick | components/chat/ChatSidebar.tsx:52 | A click selects the customer iff its conversationId is truthy, else it starts a conversation. Either way it carries the clicked customer. |
| ChatSidebar.IsSelected | components/chat/ChatSidebar.tsx:48 | A row is highlighted iff there is a selection with the row's id. |
| ChatSidebar.SelectionHighlightsOneRow | components/chat/ChatSidebar.tsx:48 | With distinct ids, one selection highlights at most one row. |
| ChatSidebar.PreviewLine | components/chat/ChatSidebar.tsx:60 | The row shows its non-empty preview, else its email. |
| ChatWindow.IsOwn | components/chat/ChatWindow.tsx:84 | A bubble is the operator's iff the sender id string, or the sender object's `_id`, equals the current user's id. |
| ChatWindow.SendIntent | components/chat/ChatWindow.tsx:33-36 | Nothing is sent iff the text is blank and no file is attached. Otherwise the trimmed text goes with the current file. |
| ChatWindow.SentTextTrimmed | components/chat/ChatWindow.tsx:35-36 | Sent text never starts or ends with whitespace. It is empty only alongside a file. |
| ChatWindow.InputDisabled | components/chat/ChatWindow.tsx:130 | The text box is disabled iff there is no truthy conversation id. |
| ChatWindow.SendButtonDisabled | components/chat/ChatWindow.tsx:137 | The button is disabled without a conversation, and whenever a send would send nothing. |
| ChatWindow.EnabledButtonSends | components/chat/ChatWindow.tsx:130-137 | An enabled button always leads to a send. With a conversation open, it is disabled iff nothing would be sent. |
| ChatWindow.Composer.constructor | components/chat/ChatWindow.tsx:28-29 | The composer starts with no text, no file and an empty file input. |
| ChatWindow.Composer.SetText | components/chat/ChatWindow.tsx:128 | Only the text changes. |
| ChatWindow.Composer.HandleFileChange | components/chat/ChatWindow.tsx:49-52 | The first chosen file replaces the current one. An empty choice keeps it. |
| ChatWindow.Composer.HandleSend | components/chat/ChatWindow.tsx:33-40 | Returns exactly SendIntent of the old state. Text, file and file input are cleared only when something was sent and the call resolved; otherwise nothing changes. |
| ChatWindow.Composer.HandleKeyDown | components/chat/ChatWindow.tsx:38-47 | Enter without Shift behaves as HandleSend: it returns SendIntent of the old draft, a delivered send clears the text, the file and the file input, and a send of nothing or an undelivered one leaves all three as they were. Any other key changes and sends nothing. |
| MessagesPage.AfterSend | app/dashboard/messages/page.tsx:22-36 | A blank input leaves the list and the box. Otherwise the list gains, at its end, the untrimmed input as the operator's message with id length+1 and the given time stamp, and the box is cleared. |
| MessagesPage.AfterSendKeepsIds | app/dashboard/messages/page.tsx:27 | If ids run 1..n before a send, they still do after it. |
| MessagesPage.Replay | app/dashboard/messages/page.tsx:10-36 | Any sequence of sends keeps the seeded greeting first. |
| MessagesPage.ReplayIds | app/dashboard/messages/page.tsx:10-36 | From the initial thread, ids always run 1, 2, 3, … and there is at most one new message per send. |
| MessagesPage.Thread.constructor | app/dashboard/messages/page.tsx:10-20 | The thread starts with the greeting and an empty box. |
| MessagesPage.Thread.SetNewMessage | app/dashboard/messages/page.tsx:84 | Only the box changes, and the ids stay sequential. |
| MessagesPage.Thread.HandleSendMessage | app/dashboard/messages/page.tsx:22-36 | The new state is AfterSend of the old one. The ids stay sequential. |
| ProductDialog.WithIngredient | components/products/product-dialog.tsx:138-140 | One blank row is appended and the earlier rows are unchanged. |
| ProductDialog.ExceptIndexRemoves | components/products/product-dialog.tsx:144 | Filtering by position removes exactly the row at the index, or nothing when the index is out of range. |
| ProductDialog.ExceptIndex | components/products/product-dialog.tsx:144 | One row fewer when the index names a row, else as many rows; every row left is one of the originals. |
| ProductDialog.WithoutIngredient | components/products/product-dialog.tsx:142-146 | The row at the index goes only while more than one row exists, so at least one row is always left. |
| ProductDialog.Renamed | components/products/product-dialog.tsx:148-152 | Only the name of the given row changes. |
| ProductDialog.WithIngredientImage | components/products/product-dialog.tsx:124-136 | Only the given row's image and preview change, to the chosen file and the data URL. |
| ProductDialog.CategoryIdOf | components/products/product-dialog.tsx:59-62 | The form holds a category string itself, an object's `_id`, or "". |
| ProductDialog.LoadedForm | components/products/product-dialog.tsx:56-65 | Loading copies the name, derives the category id, uses the description or "", and writes the price as digits. |
| ProductDialog.LoadedIngredients | components/products/product-dialog.tsx:68-78 | A product's ingredients become rows whose preview is the image. Without ingredients there is one blank row. |
| ProductDialog.LoadedIngredient | components/products/product-dialog.tsx:70-74 | A stored ingredient becomes a row with its name and its image as preview, and an untouched loaded row is sent back as it was stored. |
| ProductDialog.ToPayload | components/products/product-dialog.tsx:179-183 | A sent entry keeps the name, and has an image iff the row's image is a URL string, which it then carries. |
| ProductDialog.IngredientsPayload | components/products/product-dialog.tsx:177-183 | The payload is never longer than the rows. |
| ProductDialog.NamedRow | components/products/product-dialog.tsx:178 | A row is sent iff its trimmed name is not empty; IngredientsPayloadNames proves the payload keeps exactly such rows. |
| ProductDialog.IngredientsPayloadNames | components/products/product-dialog.tsx:177-183 | The names sent are exactly the non-blank row names, in row order. |
| ProductDialog.IngredientsPayloadSound | components/products/product-dialog.tsx:177-183 | Every entry sent is the payload of some row whose name is not blank. |
| ProductDialog.NoNamedRowsSendsEmpty | components/products/product-dialog.tsx:177-178 | When every name is blank, the ingredient array is empty. |
| ProductDialog.BuildPayload | components/products/product-dialog.tsx:165-185 | The form entries, as Types.EntryNames lists them, are name, category, description and price from the form, then image only when a file was chosen. The ingredients are IngredientsPayload. |
| ProductDialog.PlanSubmit | components/products/product-dialog.tsx:154-193 | View mode sends nothing. Otherwise a missing name, category or price stops the save. Otherwise add mode creates. Edit mode updates the product's id with BuildPayload, and a missing product is an error. |
| ProductDialog.LoadedCategories | components/products/product-dialog.tsx:84-105 | A result is normalised as on the categories page. A failed or null result gives [] and the toast "Failed to load categories". |
| ProductDialog.Editor.constructor | components/products/product-dialog.tsx:32-44 | An empty form, no image, one blank ingredient row, not loading, no categories. |
| ProductDialog.Editor.ResetForm | components/products/product-dialog.tsx:107-112 | The form, image and rows go back to their empty values. Loading and categories are kept. |
| ProductDialog.Editor.Load | components/products/product-dialog.tsx:49-82 | A closed dialog changes nothing. Opening with a product in edit or view mode loads LoadedForm, the image preview and LoadedIngredients. Any other opening resets the form. |
| ProductDialog.Editor.SetCategories | components/products/product-dialog.tsx:84-105 | Categories and toast are LoadedCategories of the result, and nothing else changes. |
| ProductDialog.Editor.SetFormData | components/products/product-dialog.tsx:245-294 | Only the text fields change. |
| ProductDialog.Editor.HandleProductImageChange | components/products/product-dialog.tsx:114-122 | The first chosen file and its data URL become the image and preview. An empty choice changes nothing. |
| ProductDialog.Editor.RemoveProductImage | components/products/product-dialog.tsx:318-321 | Image and preview are cleared and nothing else changes. |
| ProductDialog.Editor.AddIngredient | components/products/product-dialog.tsx:138-140 | The rows become WithIngredient of the old rows. |
| ProductDialog.Editor.RemoveIngredient | components/products/product-dialog.tsx:142-146 | The rows become WithoutIngredient of the old rows, and at least one row is kept. |
| ProductDialog.Editor.UpdateIngredientName | components/products/product-dialog.tsx:148-152 | The rows become Renamed of the old rows. |
| ProductDialog.Editor.HandleIngredientImageChange | components/products/product-dialog.tsx:124-136 | The rows become WithIngredientImage with the first chosen file, or stay unchanged without one. |
| ProductDialog.Editor.HandleSubmit | components/products/product-dialog.tsx:154-204 | The plan is PlanSubmit of the old state. Missing fields toast "Please fill in all required fields". A resolved save closes and resets the dialog. A rejected save toasts the server message or "Failed to save product" and keeps the form. Loading ends false once a request was tried. |
| ProductsPage.ProductsOf | app/dashboard/products/page.tsx:62 | The listing's items, or [] when the reply, its data or its items are missing. |
| ProductsPage.VisibleProducts | app/dashboard/products/page.tsx:143-150 | The rows shown are exactly the products whose lowercased name contains the lowercased query. |
| ProductsPage.EmptyQueryShowsAll | app/dashboard/products/page.tsx:145-149 | An empty query shows every product, in order. |
| ProductsPage.VisibleIsSubseq | app/dashboard/products/page.tsx:143-150 | The rows keep the listing's order. |
| ProductsPage.SearchIgnoresCase | app/dashboard/products/page.tsx:146-148 | A query equal to the name up to letter case matches it. |
| ProductsPage.CategoryCell | app/dashboard/products/page.tsx:169-171 | The cell shows the category string, else the object's name, else "N/A". |
| ProductsPage.EmptyTableWithoutNotice | app/dashboard/products/page.tsx:133-150 | As written, a listing with a product named "Cake" searched for "pie" renders no row and no "No products found" notice. |
| ProductsPage.NoMatchesRowIff | app/dashboard/products/page.tsx:133-150 | With the notice decided on the rows shown, the notice shows iff no product passes the search. |
| ProductsPage.Page.constructor | app/dashboard/products/page.tsx:18-35 | Page 1, empty search, product dialog closed in add mode with no product, delete dialog closed. |
| ProductsPage.Page.SetSearchQuery | app/dashboard/products/page.tsx:85 | Only the query changes. |
| ProductsPage.Page.HandleAddProduct | app/dashboard/products/page.tsx:46-48 | The product dialog opens in add mode with no product. |
| ProductsPage.Page.HandleEditProduct | app/dashboard/products/page.tsx:50-52 | The product dialog opens in edit mode with the product. |
| ProductsPage.Page.HandleViewProduct | app/dashboard/products/page.tsx:54-56 | The product dialog opens in view mode with the product. |
| ProductsPage.Page.HandleDeleteProduct | app/dashboard/products/page.tsx:58-60 | The delete dialog opens with the product. The product dialog is untouched. |
| ProductsPage.Page.SetProductDialogOpen | app/dashboard/products/page.tsx:218-220 | Only the product dialog's open flag changes. Mode and product are kept. |
| ProductsPage.Page.SetDeleteDialogOpen | app/dashboard/products/page.tsx:228-230 | Only the delete dialog's open flag changes. |
| CategoryDialog.ValidationError | components/categories/category-dialog.tsx:73-81 | There is no error iff both name and colour are non-empty. The name is checked first, then the colour, each with its own message. |
| CategoryDialog.BuildForm | components/categories/category-dialog.tsx:85-91 | The entries, as Types.EntryNames lists them, are name and bgColor with their values, then image only when a file was chosen. |
| CategoryDialog.Editor.constructor | components/categories/category-dialog.tsx:35-39 | Empty name, no image, empty preview, colour #ffffff, not loading. |
| CategoryDialog.Editor.ResetForm | components/categories/category-dialog.tsx:53-58 | Name "", image none, preview "", colour #ffffff. |
| CategoryDialog.Editor.Load | components/categories/category-dialog.tsx:41-51 | A closed dialog changes nothing. Opening in edit mode with a category loads its name, its image or "", and its colour or #ffffff, and keeps the chosen file. Any other opening resets the form. |
| CategoryDialog.Editor.SetName | components/categories/category-dialog.tsx:128 | Only the name changes. |
| CategoryDialog.Editor.SetBgColor | components/categories/category-dialog.tsx:153-162 | Only the colour changes. |
| CategoryDialog.Editor.HandleImageChange | components/categories/category-dialog.tsx:60-68 | The first chosen file and its data URL become the image and preview. An empty choice changes nothing. |
| CategoryDialog.Editor.HandleSubmit | components/categories/category-dialog.tsx:70-109 | A validation error toasts its message and sends nothing. Otherwise the form is BuildForm of the old fields. Add mode creates; edit mode updates the category's id. Success closes and resets; failure toasts and keeps the form. Loading ends false. |
| CategoriesPage.CategoriesOf | app/dashboard/categories/page.tsx:46-54 | An array is used as is. null and other non-arrays without array properties give []. |
| CategoriesPage.CategoriesOfFirstArray | app/dashboard/categories/page.tsx:46-54 | The result is the first array among the value, `data`, `data.items` and `items`, in that order, else []. |
| CategoriesPage.CategoriesOfFromResponse | app/dashboard/categories/page.tsx:46-54 | A non-empty result is one of the arrays found at those four places. |
| CategoriesPage.FilteredCategories | app/dashboard/categories/page.tsx:69-71 | The categories kept are exactly those whose lowercased name contains the lowercased query. |
| CategoriesPage.EmptyQueryKeepsAll | app/dashboard/categories/page.tsx:70 | An empty query keeps every category, in order. |
| CategoriesPage.FilteredIsSubseq | app/dashboard/categories/page.tsx:69-71 | The search keeps the listed order. |
| CategoriesPage.NoCategoriesIff | app/dashboard/categories/page.tsx:134-137 | "No categories found" shows iff no category passes the search. |
| CategoriesPage.Page.constructor | app/dashboard/categories/page.tsx:18-34 | Empty search, category dialog closed in add mode with no category, delete dialog closed. |
| CategoriesPage.Page.SetSearchQuery | app/dashboard/categories/page.tsx:94 | Only the query changes. |
| CategoriesPage.Page.HandleAddCategory | app/dashboard/categories/page.tsx:56-58 | The category dialog opens in add mode with no category. |
| CategoriesPage.Page.HandleEditCategory | app/dashboard/categories/page.tsx:60-62 | The category dialog opens in edit mode with the category. |
| CategoriesPage.Page.HandleDeleteCategory | app/dashboard/categories/page.tsx:64-66 | The delete dialog opens with the category. The category dialog is untouched. |
| CategoriesPage.Page.SetCategoryDialogOpen | app/dashboard/categories/page.tsx:195 | Only the category dialog's open flag changes. Mode and category are kept. |
| CategoriesPage.Page.SetDeleteDialogOpen | app/dashboard/categories/page.tsx:203 | Only the delete dialog's open flag changes. |
| Orders.ListParams | lib/orders-api.ts:5-10 | The keys are page and limit, plus status only for a non-empty status. The values are those arguments. |
| Orders.PageQuery | app/dashboard/orders/page.tsx:23-26 | The list asks for limit "10" on the current page, with no status. |
| Orders.UpdateData | app/dashboard/orders/page.tsx:29-33 | The object has status iff a non-empty status is given, has paymentStatus iff a non-empty one is given, in that order, and has no other key. |
| Orders.BuildUpdateData | app/dashboard/orders/page.tsx:30-32 | The step-by-step assignment builds exactly UpdateData. |
| Orders.MenuArguments | app/dashboard/orders/page.tsx:141-211 | "Mark as Paid" gives payment "Paid", "Mark as Pending" gives payment "Pending", and a status entry gives only that status's name. |
| Orders.MenuCall | app/dashboard/orders/page.tsx:28-34 | Every menu entry updates its own order with an object body. |
| Orders.MenuCallFields | app/dashboard/orders/page.tsx:141-211 | The payment menu sends only paymentStatus, as "Paid" or "Pending". The status menu sends only status, as the chosen name. |
| Orders.StatusMenuDistinct | app/dashboard/orders/page.tsx:172-211 | Different status entries send different bodies. |
| Orders.UpdateToast | app/dashboard/orders/page.tsx:35-41 | The toast is a success iff the update resolved, with the page's two fixed texts. |
| Orders.OrdersOf | app/dashboard/orders/page.tsx:44-48 | The loaded orders, or [] when nothing is loaded. |
| Orders.FilteredOrders | app/dashboard/orders/page.tsx:44-48 | The orders kept are exactly those whose id contains the term as typed, or whose lowercased customer name contains the lowercased term. |
| Orders.EmptyTermKeepsAll | app/dashboard/orders/page.tsx:44-48 | An empty term keeps every loaded order. |
| Orders.FilteredIsSubseq | app/dashboard/orders/page.tsx:44-48 | The search keeps the listed order. |
| Orders.NothingLoadedShowsNothing | app/dashboard/orders/page.tsx:44 | With nothing loaded, no row shows, whatever the term. |
| Orders.Footer | app/dashboard/orders/page.tsx:228-230 | "Showing 1 to n from t": the lower end is 1 on every page, n is the number of rows the search leaves on this page, and t is the server's total, absent while nothing is loaded. |
| Orders.FooterCountsPageRows | app/dashboard/orders/page.tsx:228-230 | Without a search, n is the number of orders on the current page, not a row number within the total. |
| Orders.DisplayId | app/dashboard/orders/page.tsx:97 | "#" followed by the last six characters of the id, or the whole id when it is shorter. |
| Orders.PaymentButtonLabel | app/dashboard/orders/page.tsx:132-137 | "Done ✓" iff the order is paid, else "Hold ⏱". |
| Orders.LastPage | app/dashboard/orders/page.tsx:241-258 | The page count when it is present and non-zero; a missing count or 0 reads as 1. |
| Orders.StepForward | app/dashboard/orders/page.tsx:257 | "Next" moves one page on, but never past the last page. |
| Orders.PageButtons | app/dashboard/orders/page.tsx:241-253 | The buttons are 1 up to the smaller of 5 and the last page. |
| Orders.PageButtonsInRange | app/dashboard/orders/page.tsx:241-253 | There is always a first button, 1, and every button names an existing page. |
| Orders.PagerStaysInRange | app/dashboard/orders/page.tsx:235-258 | From a valid page, previous, next and every button land on a valid page. |
| Orders.DisabledButtonsDoNotMove | app/dashboard/orders/page.tsx:235-258 | "Previous" would not move exactly on page 1. "Next" would not move on the last page, and moves one page before it. |
| Orders.Page.constructor | app/dashboard/orders/page.tsx:18-20 | Page 1, empty term, no selected order. |
| Orders.Page.SetSearchTerm | app/dashboard/orders/page.tsx:19 | Only the term changes. |
| Orders.Page.Previous | app/dashboard/orders/page.tsx:235-236 | The page becomes StepBack of the old page, never below 1. |
| Orders.Page.Next | app/dashboard/orders/page.tsx:257-258 | The page becomes StepForward of the old page, never past the last page. |
| Orders.Page.GoToPage | app/dashboard/orders/page.tsx:241-253 | The page becomes the button's number, which is an existing page. |
| Orders.Page.SelectOrder | app/dashboard/orders/page.tsx:216 | The detail dialog shows the row's order. |
| Orders.Page.CloseDetails | app/dashboard/orders/page.tsx:267 | The selection is cleared. |
| DeliveredOrders.DeliveredQuery | app/dashboard/delivered-orders/page.tsx:20-23 | The list always asks for status "Delivered", with limit "10" on the current page. |
| DeliveredOrders.Rows | app/dashboard/delivered-orders/page.tsx:94 | The rows are the loaded orders, or none. |
| DeliveredOrders.StatusColor | app/dashboard/delivered-orders/page.tsx:36-49 | Each of the four statuses maps to its own classes, and anything else maps to gray. |
| DeliveredOrders.StatusColorsDistinct | app/dashboard/delivered-orders/page.tsx:36-49 | The four statuses have four distinct colours, none of them the gray default. |
| DeliveredOrders.MenuCall | app/dashboard/delivered-orders/page.tsx:26-161 | As written, "Mark as Paid" sends the bare string "Delivered" and "Mark as Pending" the bare string "Pending". |
| DeliveredOrders.MenuNeverUpdatesPayment | app/dashboard/delivered-orders/page.tsx:142-161 | As written, no entry of the payment menu sends an object, so paymentStatus is never set. |
| DeliveredOrders.CorrectedMenuCall | app/dashboard/orders/page.tsx:141-160 | The corrected menu sends an object body for the order, as the order list's payment menu does. |
| DeliveredOrders.CorrectedMenuSetsPayment | lib/orders-api.ts:17-20 | The corrected body has only paymentStatus, set to "Paid" or "Pending". |
| DeliveredOrders.UpdateToast | app/dashboard/delivered-orders/page.tsx:28-33 | The toast is a success iff the update resolved, with the page's two fixed texts. |
| DeliveredOrders.PaymentButtonLabel | app/dashboard/delivered-orders/page.tsx:137 | "Done" iff the order is paid, else "Hold". |
| DeliveredOrders.TotalOrZero | app/dashboard/delivered-orders/page.tsx:176 | The listing's total, or 0 when it is missing. |
| DeliveredOrders.ShownRange | app/dashboard/delivered-orders/page.tsx:176 | Exactly the range from (page-1)*10+1 to min(page*10, total or 0). It spans at most ten rows; on a page that has rows it lies inside 1..total; with nothing loaded the upper end is 0. |
| DeliveredOrders.NextEnabledIff | app/dashboard/delivered-orders/page.tsx:205-206 | "Next" is enabled iff a non-zero page count is known and exceeds the current page. |
| DeliveredOrders.Page.constructor | app/dashboard/delivered-orders/page.tsx:16 | Page 1. |
| DeliveredOrders.Page.Previous | app/dashboard/delivered-orders/page.tsx:182-183 | The page becomes StepBack of the old page, never below 1. |
| DeliveredOrders.Page.Next | app/dashboard/delivered-orders/page.tsx:205-206 | The page grows by one and stays within the page count. |
| DeliveredOrders.Page.GoToPage | app/dashboard/delivered-orders/page.tsx:188-201 | The page becomes the button's number: 1, 2, 3 or 17. |
| Overview.OverviewQuery | components/dashboard/overview.tsx:22-25 | The overview asks for page "1" with limit "100". |
| Overview.TotalRevenue | components/dashboard/overview.tsx:28 | No orders give 0 and a single order gives its amount; TotalRevenueAppend and TotalRevenueNonNegative carry the rest. |
| Overview.TotalRevenueAppend | components/dashboard/overview.tsx:28 | The revenue of two batches of orders is the sum of their revenues. |
| Overview.TotalRevenueNonNegative | components/dashboard/overview.tsx:28 | With no negative amounts, the revenue is never negative. |
| Overview.DeliveredCount | components/dashboard/overview.tsx:29 | The delivered count never exceeds the number of orders. |
| Overview.DeliveredCountFull | components/dashboard/overview.tsx:29 | The count equals the number of orders iff every order is delivered. |
| Overview.Stats | components/dashboard/overview.tsx:31-52 | Four cards: order count, delivered count, "$" plus the revenue, and the order count again. |
| Overview.DeliveredAtMostOrders | components/dashboard/overview.tsx:31-41 | The delivered card never shows more than the order card. |
| Overview.NoDataAllZero | components/dashboard/overview.tsx:27-52 | With nothing loaded, the cards read 0, 0, "$0" and 0. |
| Overview.RecentOrders | components/dashboard/overview.tsx:141 | The recent table shows the first min(10, n) orders, in order. |
| Overview.RecentOrdersLoaded | components/dashboard/overview.tsx:141 | With ten or fewer orders it shows all of them, and every row is the loaded order at that position. |
| Overview.Badge | components/dashboard/overview.tsx:148-154 | Delivered is green, Pending is yellow, anything else is gray. |
| Overview.GrayBadgeShared | components/dashboard/overview.tsx:148-154 | Processing and Cancelled share the gray badge. Delivered and Pending differ. |
| CustomersPage.UsersOf | app/dashboard/customers/page.tsx:30 | The loaded users, or [] when they are missing. |
| CustomersPage.TotalUsers | app/dashboard/customers/page.tsx:31 | The listing's total, or the number of loaded users when the total is missing or 0. |
| CustomersPage.TotalPages | app/dashboard/customers/page.tsx:32 | The page count when it is present and non-zero; a missing count or 0 reads as 1. |
| CustomersPage.FilteredUsers | app/dashboard/customers/page.tsx:34-39 | The users kept are exactly those for whom the query is empty, or occurs (lowercased) in the name or email. A missing field never matches. |
| CustomersPage.EmptyQueryKeepsAll | app/dashboard/customers/page.tsx:34-38 | An empty search keeps every user, in order. |
| CustomersPage.FilteredIsSubseq | app/dashboard/customers/page.tsx:34-39 | The search keeps the listed order. |
| CustomersPage.SearchNeedsAField | app/dashboard/customers/page.tsx:36-37 | Under a non-empty search, a user is kept only through a present name or email that contains the query. |
| CustomersPage.NoCustomersIff | app/dashboard/customers/page.tsx:150-159 | "No customers found" shows iff no loaded user passes the search. |
| CustomersPage.NoOrdersSpentNothing | app/dashboard/customers/page.tsx:41-45 | A customer with no orders has spent 0. |
| CustomersPage.TotalSpentAddsOrder | app/dashboard/customers/page.tsx:41-45 | One more order adds its amount, or 0 when the amount is missing. |
| CustomersPage.TotalSpentNonNegative | app/dashboard/customers/page.tsx:41-45 | With no negative amounts, the total spent is never negative. |
| CustomersPage.TotalSpent | app/dashboard/customers/page.tsx:41-45 | A customer with one order has spent that order's amount, or 0 when it is missing; the lemmas beside it carry the sum. |
| CustomersPage.OrderCount | app/dashboard/customers/page.tsx:130 | The number of orders, or 0 when the list is missing. |
| CustomersPage.PhoneCell | app/dashboard/customers/page.tsx:128 | The phone, or "N/A" when it is missing or empty. |
| CustomersPage.TotalNumbers | app/dashboard/customers/page.tsx:340-343 | A figure is shown iff the order has an item list. |
| CustomersPage.TotalNumbersBounds | app/dashboard/customers/page.tsx:340-343 | An empty item list shows 0. With no negative quantity, the figure is never negative. |
| CustomersPage.TotalNumbersSplit | app/dashboard/customers/page.tsx:340-343 | An item list split in two adds up to the sum of its halves. |
| CustomersPage.ItemNameCell | app/dashboard/customers/page.tsx:337 | The first item's name when it is present and non-empty. In every other case, an empty name included, "N/A". |
| CustomersPage.PaymentBadge | app/dashboard/customers/page.tsx:351-355 | Green iff the order is "Paid", red otherwise. |
| CustomersPage.NoOrdersIffZeroCount | app/dashboard/customers/page.tsx:369-379 | "No orders found for this customer." shows iff the order count reads 0. |
| CustomersPage.ShownRange | app/dashboard/customers/page.tsx:167-168 | At most ten rows. On a page that has rows, the range lies inside 1..totalUsers. |
| CustomersPage.SinglePageNoNext | app/dashboard/customers/page.tsx:32-199 | With one page or no page count, "next" is disabled on page 1. |
| CustomersPage.Page.constructor | app/dashboard/customers/page.tsx:21-23 | Page 1, empty search, no customer selected. |
| CustomersPage.Page.SetSearchQuery | app/dashboard/customers/page.tsx:22 | Only the query changes. |
| CustomersPage.Page.Previous | app/dashboard/customers/page.tsx:174-175 | The page becomes StepBack of the old page, never below 1. |
| CustomersPage.Page.Next | app/dashboard/customers/page.tsx:198-199 | The page grows by one and stays within the page count. |
| CustomersPage.Page.GoToPage | app/dashboard/customers/page.tsx:180-194 | The page becomes the button's number: 1, 2 or 3. |
| CustomersPage.Page.SelectCustomer | app/dashboard/customers/page.tsx:143 | The dialog opens on the row's customer. |
| CustomersPage.Page.OnOpenChange | app/dashboard/customers/page.tsx:209-213 | Closing clears the selection. Opening keeps it. |
| CustomersPage.Page.Back | app/dashboard/customers/page.tsx:227 | The selection is cleared. |
| ForgotPassword.AfterSubmit | app/auth/forgot-password/page.tsx:21-70 | A successful email submit moves to the code. A successful code submit moves to the new password. A failure or a reset submit leaves the step. |
| ForgotPassword.RunRank | app/auth/forgot-password/page.tsx:21-49 | Starting from the email form, the step reached depends only on the number of successful calls, capped at the last form. Failures never move it. |
| ForgotPassword.ShownFormAdvancesByOne | app/auth/forgot-password/page.tsx:21-49 | Submitting the shown form moves at most one step forward, and only on success. |
| ForgotPassword.BoxValue | app/auth/forgot-password/page.tsx:120 | Box i shows character i of the code, or "" past its end. |
| ForgotPassword.Split | app/auth/forgot-password/page.tsx:122 | One one-character string per character. |
| ForgotPassword.JoinAppend | app/auth/forgot-password/page.tsx:124 | Joining a concatenation joins the halves. |
| ForgotPassword.JoinSplit | app/auth/forgot-password/page.tsx:122-124 | Splitting and joining gives the code back. |
| ForgotPassword.JoinHoles | app/auth/forgot-password/page.tsx:123-124 | The holes left by assigning past the end join to "". |
| ForgotPassword.EditReplacesOne | app/auth/forgot-password/page.tsx:121-125 | Typing one character into a box inside the code replaces exactly that character. |
| ForgotPassword.ClearShiftsLeft | app/auth/forgot-password/page.tsx:121-125 | Clearing a box inside the code shortens it, so every later box shows its neighbour's character. |
| ForgotPassword.EditPastEndAppends | app/auth/forgot-password/page.tsx:121-125 | Typing into a box past the end adds the character at the end of the code. |
| ForgotPassword.TypedInOrderIsCode | app/auth/forgot-password/page.tsx:120-132 | Filling the boxes in order enters exactly the characters typed. Six of them enable Verify while nothing is loading. |
| ForgotPassword.JoinAssigned | app/auth/forgot-password/page.tsx:122-124 | Assigning element i of the split code and joining gives the edited code. |
| ForgotPassword.JoinPadded | app/auth/forgot-password/page.tsx:122-124 | Assigning past the end after holes and joining adds the value at the end. |
| ForgotPassword.EditOtp | app/auth/forgot-password/page.tsx:121-125 | The split/assign/join loop yields exactly the edited code. |
| ForgotPassword.OtpAfterEdit | app/auth/forgot-password/page.tsx:120-125 | Inside the code, the characters before the edited box are kept, the value follows them and the length changes by the value's length less one. Past the end, the code is kept and the value is added after it. |
| ForgotPassword.VerifyDisabled | app/auth/forgot-password/page.tsx:132 | Verify is off while loading and whenever the code is not exactly six characters; TypedInOrderIsCode shows six typed characters enable it. |
| ForgotPassword.JoinLoop | app/auth/forgot-password/page.tsx:124 | The join loop concatenates the parts in order. |
| ForgotPassword.Page.constructor | app/auth/forgot-password/page.tsx:14-19 | The email step, all fields empty, not loading. |
| ForgotPassword.Page.SetEmail | app/auth/forgot-password/page.tsx:90 | Only the email changes. |
| ForgotPassword.Page.SetNewPassword | app/auth/forgot-password/page.tsx:153 | Only the new password changes. |
| ForgotPassword.Page.SetConfirmPassword | app/auth/forgot-password/page.tsx:165 | Only the confirmation changes. |
| ForgotPassword.Page.EditBox | app/auth/forgot-password/page.tsx:121-125 | The code gets the edit of box i, and nothing else changes. |
| ForgotPassword.Page.HandleEmailSubmit | app/auth/forgot-password/page.tsx:21-34 | Requests a code for the entered email. Success toasts and moves to the code step; failure toasts and stays. Loading ends false. |
| ForgotPassword.Page.HandleOtpSubmit | app/auth/forgot-password/page.tsx:36-49 | Verifies the entered email and code. Success moves to the reset step; failure toasts "Invalid OTP" and stays. Loading ends false. |
| ForgotPassword.Page.HandleResetSubmit | app/auth/forgot-password/page.tsx:51-70 | Mismatched passwords toast and send nothing. Otherwise the email and code of the earlier steps go with the new password. Success schedules /auth/login after 2000 ms. Loading ends false. |
| Header.ChangeRequest | components/dashboard/header.tsx:44-52 | There is no request iff new and confirmation differ. The request has exactly currentPassword and newPassword with the typed values. |
| Header.RequestIgnoresConfirmation | components/dashboard/header.tsx:49-52 | Once the passwords match, the confirmation field plays no part in the request. |
| Header.ButtonLabel | components/dashboard/header.tsx:133-135 | "Changing..." iff the request is pending, else "Change Password". |
| Header.Dialog.constructor | components/dashboard/header.tsx:20-25 | The dialog is closed, the fields empty, nothing pending. |
| Header.Dialog.SetShowPasswordDialog | components/dashboard/header.tsx:71-83 | Only the dialog's open flag changes. |
| Header.Dialog.SetCurrentPassword | components/dashboard/header.tsx:95-100 | Only the current password changes. |
| Header.Dialog.SetNewPassword | components/dashboard/header.tsx:109-111 | Only the new password changes. |
| Header.Dialog.SetConfirmPassword | components/dashboard/header.tsx:120-125 | Only the confirmation changes. |
| Header.Dialog.HandleChangePassword | components/dashboard/header.tsx:44-53 | The request is ChangeRequest of the fields. A mismatch toasts "Passwords do not match" and nothing becomes pending; a request becomes pending. |
| Header.Dialog.Settle | components/dashboard/header.tsx:30-41 | Success toasts, closes the dialog and clears all three fields. An error toasts and leaves the fields and the dialog. Nothing is pending afterwards. |
| Sidebar.ActiveItems | components/dashboard/sidebar.tsx:30-32 | The highlighted items are exactly the menu items whose href equals the path, or whose href followed by "/dashboard/" starts it. |
| Sidebar.HrefsDistinct | components/dashboard/sidebar.tsx:10-18 | The seven hrefs are distinct. |
| Sidebar.ShortPathsMatchExactly | components/dashboard/sidebar.tsx:32 | For paths shorter than 21 characters, an item is active iff the path equals its href. |
| Sidebar.OrdersPathHighlightsOrderLists | components/dashboard/sidebar.tsx:11-32 | On /dashboard/orders only "Order Lists" is active; "Overview" is not. |
| Sidebar.NestedPathHighlightsNothing | components/dashboard/sidebar.tsx:32 | /dashboard/orders/x highlights no item. |
| Paging.StepBack | app/dashboard/orders/page.tsx:235 | "Previous" moves one page back and never below 1. |
| Paging.ShownRange | app/dashboard/customers/page.tsx:167-168 | The shown range covers at most ten rows. On a page that has rows it lies inside 1..total, and it is empty past the end. |
| Paging.FirstShown | app/dashboard/customers/page.tsx:167-168 | On any page from 1 on, the first row number is at least 1 and starts a block of ten. |
| Paging.LastShown | app/dashboard/customers/page.tsx:167-168 | The last row number is the smaller of page*10 and the total: at most both, and equal to one of them. |
| Types.RejectionText | components/products/product-dialog.tsx:200 | The reply's non-empty message, else the fallback text. |
| Types.StatusNameInjective | lib/types.ts:47 | The four order statuses have four distinct names. |
| Records.Keys | lib/chat-api.ts:48-53 | An object's keys, in insertion order. |
| Records.Lookup | lib/chat-api.ts:48-53 | A property is found iff its key is present, and the value found is stored under it. |
| Records.Assign | app/dashboard/orders/page.tsx:30-32 | Assigning keeps a present key in place, and otherwise adds it at the end. |
| Records.LookupAssign | app/dashboard/orders/page.tsx:30-32 | After an assignment the key reads the new value, and every other key reads as before. |
| Records.LookupSpread | lib/chat-api.ts:50-53 | After a spread, a key takes its value from the later object when it has it, else from the earlier one. |
| Records.Spread | lib/chat-api.ts:49-53 | The later object's properties assigned over the earlier one in order; LookupSpread states what every key reads afterwards. |
| Records.SpreadEmpty | lib/chat-api.ts:52 | Spreading an empty object changes nothing. |
| Seqs.Filter | components/chat/ChatSidebar.tsx:31-36 | filter keeps only passing elements, all of them, and never more than the input. |
| Seqs.FilterIsSubseq | components/chat/ChatSidebar.tsx:31-36 | filter preserves order. |
| Seqs.FilterKeepsAll | components/chat/ChatSidebar.tsx:30 | A test every element passes keeps the whole list. |
| Seqs.FilterKeepsNone | components/chat/ChatSidebar.tsx:67 | A test no element passes keeps nothing. |
| Seqs.FilterFullIff | components/dashboard/overview.tsx:29 | The full length is kept iff every element passes. |
| Seqs.FilterSplit | components/dashboard/overview.tsx:29 | Filtering a concatenation filters each part. |
| Seqs.FilterSingleHit | components/dashboard/sidebar.tsx:30-32 | When only the element at k passes, filter keeps exactly that element. |
| Seqs.FilterCongruent | components/chat/ChatSidebar.tsx:31-36 | Tests that agree on every element filter alike. |
| Seqs.Map | components/products/product-dialog.tsx:179-183 | map keeps the length and applies the function at every position. |
| Seqs.MapFilter | components/products/product-dialog.tsx:177-183 | Mapping after filtering equals filtering after mapping, by a test on the mapped values that agrees. |
| Seqs.MapAppend | components/products/product-dialog.tsx:177-183 | Mapping distributes over concatenation. |
| Seqs.SumAppend | components/dashboard/overview.tsx:28 | A reduce sum over a concatenation is the sum of the parts. |
| Seqs.SumNonNegative | components/dashboard/overview.tsx:28 | A sum of non-negative terms is non-negative. |
| Seqs.SumSnoc | app/dashboard/customers/page.tsx:41-45 | One more element adds its term. |
| Seqs.Sum | components/dashboard/overview.tsx:28 | A left fold of the terms from 0, as reduce computes it; SumAppend, SumNonNegative and SumSnoc state its properties. |
| Strings.TrimStart | components/chat/ChatWindow.tsx:35-36 | Removes exactly the leading whitespace. |
| Strings.TrimEnd | components/chat/ChatWindow.tsx:35-36 | Removes exactly the trailing whitespace. |
| Strings.Trim | components/chat/ChatWindow.tsx:35-36 | Exactly TrimEnd of TrimStart, so only leading and trailing whitespace is removed. The result is a contiguous part of the input with no whitespace at either end. |
| Strings.BlankIffAllWhitespace | components/chat/ChatWindow.tsx:35 | A string trims to empty iff every character is whitespace. |
| Strings.IsBlank | components/chat/ChatWindow.tsx:35 | `!s.trim()`: the trimmed string is empty; BlankIffAllWhitespace states when. |
| Strings.ToLower | components/chat/ChatSidebar.tsx:29-35 | Same length. Each ASCII capital becomes its own lower-case letter, every other character is kept, and no ASCII capital is left. |
| Strings.ToLowerIdempotent | components/chat/ChatSidebar.tsx:29-35 | Lowercasing twice is lowercasing once. |
| Strings.ContainsIff | components/chat/ChatSidebar.tsx:33-35 | includes holds iff the query occurs at some position. |
| Strings.ContainsEmpty | components/chat/ChatSidebar.tsx:30 | Every string includes "". |
| Strings.SliceLast | app/dashboard/orders/page.tsx:97 | slice(-n) gives the last n characters, or the whole string when it is shorter. |
| Strings.NatToString | app/dashboard/orders/page.tsx:23-26 | A non-empty string of decimal digits with no leading zero. |
| Strings.ParseNatString | lib/chat-api.ts:82 | Reading the decimal digits back gives the number. |
| Strings.IntToString | app/dashboard/orders/page.tsx:23-26 | Never empty, and starting with "-" iff the number is negative. |

## Left out

- The socket-based chat controller and the projection of conversations to sidebar rows are left out: they drive a live socket connection and React context, which is I/O outside the request building and state logic modelled here.
- Network and session I/O are parameters: `fetch`, axios, `getSession`, `getToken` and next-auth `signIn`/`signOut`. The model takes the token's presence, the response status and body, and each call's outcome as inputs.
- The thin `lib/*-api.ts` wrappers and the axios interceptors of `lib/api.ts` are foreign calls. Only the parameter object of `getOrders` and the body of `updateOrderStatus` are modelled.
- React Query caching, invalidation, refetching and `isLoading` skeleton rows are left out. Asynchronous ordering is left out too: a handler runs to its end with the outcome given.
- FileReader previews are parameters. The model passes the data URL the reader produces to the handler, as if `onloadend` had already fired.
- Date and time formatting (`toLocaleTimeString`, `toLocaleDateString`, date-fns) is left out. The messages page's time stamp is an input.
- Prices and amounts are whole numbers. Floating point, `toFixed(2)` and the float-to-string conversion are left out.
- The charts, their constant data, styling, scroll-into-view, avatars (`charAt(0).toUpperCase()`) and images are rendering only.
- The delete dialogs, the login form, the login and reset-password pages and the dashboard layout are left out: they have no logic of their own beyond one guarded call.
- The delivered-orders page's search box is not wired to anything, so it is not modelled. The order page's footer is modelled as Orders.Footer; its lower end stays 1 on every page. The "+n more" items cell is left out.
- Strings.ToLower: lowercases ASCII letters only; full Unicode case mapping is not modelled.
- ChatApi.FetchHeaders: header names are compared case-sensitively, while `fetch` treats them case-insensitively.
- ChatApi.GetMessages: the query is serialised without `URLSearchParams` percent-escaping, which is exact only for ids and numbers that need no escaping. So is `NEXT_PUBLIC_BASE_URL`, a parameter.
- ProductDialog.BuildPayload: the `ingredients` entry is carried as the array of entries, not as its `JSON.stringify` text.
- ProductDialog.Editor.UpdateIngredientName, ProductDialog.Editor.HandleIngredientImageChange: the source's shallow copy shares row objects with the previous state, and the handler writes `.name`, or `.image` and `.preview`, into the shared row. The model replaces the row by value, so that aliasing is not captured.
- ProductDialog.Editor.Load: the `loadCategories` call made on every opening is modelled separately, as ProductDialog.Editor.SetCategories.
- Orders.Page.Previous, CustomersPage.Page.Previous, DeliveredOrders.Page.Previous: require that the page is not 1, because the button is disabled there.
- Orders.Page.Next, CustomersPage.Page.Next, DeliveredOrders.Page.Next: require that "next" is enabled, which is the button's own disabled rule.
- Orders.Page.GoToPage, CustomersPage.Page.GoToPage, DeliveredOrders.Page.GoToPage: require that the number is one of the rendered buttons.
- Header.Dialog.HandleChangePassword: requires that no request is pending, because the button is disabled while one is. Header.Dialog.Settle requires a pending request.
- ForgotPassword.Page.EditBox: requires one of the six rendered boxes. ProductDialog.Editor.UpdateIngredientName and ProductDialog.Editor.HandleIngredientImageChange require the index of a rendered row.
- ForgotPassword.Page handlers do not require the current step, since only the current step's form is shown. The disabled state of the Verify button is modelled as ForgotPassword.VerifyDisabled.
- Two behaviours are modelled as written and not reported as defects, because their intent is unclear:
  - Editing an OTP box shifts or appends characters (ForgotPassword.ClearShiftsLeft, ForgotPassword.EditPastEndAppends).
  - The sidebar matches `href + "/dashboard/"` (Sidebar.NestedPathHighlightsNothing).

## Findings

| source | as written | input that shows it | evidently intended | confidence | as-written member | corrected member |
|---|---|---|---|---|---|---|
| app/dashboard/products/page.tsx:133-150 | "No products found" is decided on the unfiltered listing, before the search filter runs | one product named "Cake", search "pie": no row and no notice | the notice shows when no row passes the search, as on the categories page | not executed | ProductsPage.EmptyTableWithoutNotice | ProductsPage.NoMatchesRowIff |
| app/dashboard/delivered-orders/page.tsx:142-161 | "Mark as Paid" mutates with status "Delivered" and `mutationFn` passes that bare string as the update body (line 26), although `updateOrderStatus` takes an object (lib/orders-api.ts:17) | choosing "Mark as Paid" on any order sends the string "Delivered", so no paymentStatus is set | send `{ paymentStatus: "Paid" }` / `{ paymentStatus: "Pending" }`, as the order list does | not executed | DeliveredOrders.MenuNeverUpdatesPayment | DeliveredOrders.CorrectedMenuSetsPayment |
