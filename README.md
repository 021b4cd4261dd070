# Auto-service bots: login conversation, order callbacks and keyboards

This project models the core of the Telegram bots of an auto-service
(Python, aiogram) in Dafny and proves properties of the model:

- **The mechanics' login conversation** (`service_bot/app/handlers/service_handlers.py`).
  The class `ServiceAuth.ServiceAuthRouter` holds three fields:
  - `userAuthData` is the module-level dictionary `user_auth_data` of login entries, which stay after a finished login.
  - `fsm` holds each user's aiogram FSM state (`waiting_for_login`, `waiting_for_password`, or none).
  - `log` records what the bot sends and which message deletions it attempts.

  `/start`, the login step, the password step and `/help` are methods that
  change these fields. `HandleMessage` hands a text message to the first
  registered handler whose filter accepts it. The class invariant `Valid`
  says a pending login holds two message ids and awaits the password, and a
  finished one holds three and has no state left.
- **The mechanics' callback handlers** (same file), in `ServiceCallbacks`.
  - Each handler is a function from the button's callback data and the API's response to the steps it takes (acknowledge, GET request, reply).
  - `Orders.ClassifyOrders` and `Orders.ClassifyOrder` are the rule for telling a usable response from an error.
  - The order number is recovered from a token with `split("_")[2]`.
  - `Route` is the registration-order dispatch.
- **The keyboards of both bots** (`service_keyboards.py`, `staff_keyboards.py`).
  - Each keyboard is built by a method that grows a `Keyboard.KeyboardBuilder` row by row, as the source does.
  - Each method is proved to return the layout that the function `MainMenu`, `OrdersList` or `OrderActions` describes.
  - Lemmas give the row counts, the row order, the tokens, and the round trip from an emitted token back to its order number.

Python's string operations are modelled in `Text`:
- `str.split` with a one-character separator, proved the inverse of `join`.
- `str.strip()`, over the exact set of characters `str.isspace` accepts.
- `str.startswith`.
- The first word of a message, which aiogram's `Command` filters look at.

## Model

| member | source | states |
|---|---|---|
| Text.StripPrefix | service_bot/app/keyboards/staff_keyboards.py:36 | cutting a prefix off succeeds exactly when the string starts with it, and the prefix plus the remainder is the string |
| Text.Split | service_bot/app/handlers/service_handlers.py:124 | `split("_")` gives at least one field, no field holds the separator, and joining the fields with it gives the string back |
| Text.SplitJoin | service_bot/app/handlers/service_handlers.py:124 | splitting what was joined from separator-free fields gives those fields back |
| Text.SplitAfterField | service_bot/app/handlers/service_handlers.py:124 | a separator-free field followed by the separator is split off whole in front of the split of the rest |
| Text.SplitWithoutSeparator | service_bot/app/handlers/service_handlers.py:124 | a string without the separator splits into itself alone |
| Text.Field | service_bot/app/handlers/service_handlers.py:124 | `split(sep)[k]` exists exactly when there are more than `k` fields, and it holds no separator |
| Text.Trim | service_bot/app/handlers/service_handlers.py:41 | `strip()` is no longer than its input and neither starts nor ends with whitespace |
| Text.TrimDropsOnlySpace | service_bot/app/handlers/service_handlers.py:41 | `strip()` keeps a slice of the text and removes only whitespace before and after it |
| Text.TrimIdempotent | service_bot/app/handlers/service_handlers.py:41 | stripping a stripped login changes nothing |
| Text.FirstWord | service_bot/app/handlers/service_handlers.py:84 | the word a command filter inspects contains no whitespace |
| Text.FirstWordIsFirstWord | service_bot/app/handlers/service_handlers.py:84 | the word found is the first word of the text: only whitespace precedes it, it holds none, whitespace or the end follows it, and it is empty only when the text is all whitespace |
| Text.FirstWordAtUnique | service_bot/app/handlers/service_handlers.py:84 | a text has one first word, at one position, so the characterisation above pins the word down |
| Text.IsCommand | service_bot/app/handlers/service_handlers.py:84 | a text passes `Command(name)` only when its first word starts with `/name`; a name holding `@` never matches |
| Text.CommandWithArguments | service_bot/app/handlers/service_handlers.py:84 | `/name`, `/name` followed by whitespace and arguments, and `/name@mention` all pass the `Command(name)` filter |
| Text.BareCommand | service_bot/app/handlers/service_handlers.py:24 | a bare `/name` passes the filter of that command name and of no other |
| Text.ContainsMiddle | service_bot/app/handlers/service_handlers.py:150 | a text built around a part contains that part |
| Text.ConcatRuns | service_bot/app/keyboards/service_keyboards.py:33 | an f-string starts with its leading pieces and contains every run of consecutive pieces |
| Orders.ClassifyOrders | service_bot/app/handlers/service_handlers.py:100-119 | success iff status 200 and `data` has `orders`. A successful empty list is its own outcome and never an error. A non-empty list is returned unchanged. Any other response is an error carrying `data["message"]`, or "Неизвестная ошибка" when that is missing |
| Orders.ClassifyOrder | service_bot/app/handlers/service_handlers.py:127-142 | the same rule keyed on `order`: the outcome is the order itself or the error with the same fallback text |
| Orders.ErrorText | service_bot/app/handlers/service_handlers.py:118 | the error text is `data["message"]` when present, and "Неизвестная ошибка" when the message or the whole `data` is missing |
| Orders.NumberText | service_bot/app/keyboards/service_keyboards.py:27 | `order.get("number")` is the number when present and formats as "None" when missing |
| Orders.ClientName | service_bot/app/keyboards/service_keyboards.py:28 | the client's name when both the client and its name are present, otherwise "Клиент" |
| Orders.CarText | service_bot/app/keyboards/service_keyboards.py:29 | the car when present, otherwise "Автомобиль" |
| Orders.AmountText | service_bot/app/keyboards/service_keyboards.py:30 | the amount when present, otherwise 0 |
| Orders.StatusText | service_bot/app/keyboards/service_keyboards.py:31 | the status when present, otherwise the empty text |
| Keyboard.KeyboardBuilder.constructor | service_bot/app/keyboards/service_keyboards.py:11 | a new builder has no rows |
| Keyboard.KeyboardBuilder.AddRow | service_bot/app/keyboards/service_keyboards.py:13-15 | `builder.row(...)` appends its buttons as one new bottom row and changes nothing else |
| Keyboard.OrderRowsAt | service_bot/app/keyboards/service_keyboards.py:26-39 | the order loop makes one row per order, and row `i` is exactly the single button of order `i` |
| Keyboard.OrderRowsSnoc | service_bot/app/keyboards/service_keyboards.py:26-39 | one more loop iteration adds that order's row at the bottom |
| Keyboard.ListShape | service_bot/app/keyboards/service_keyboards.py:22-45 | rows of the orders followed by a closing row: one row more than orders, row `i` the button of order `i`, the closing row last |
| ServiceKeyboards.MainMenu | service_bot/app/keyboards/service_keyboards.py:9-20 | two single-button rows, `show_service_orders` and then `help` |
| ServiceKeyboards.GetServiceMainMenu | service_bot/app/keyboards/service_keyboards.py:9-20 | building the menu row by row gives exactly that layout |
| ServiceKeyboards.OrderButtonText | service_bot/app/keyboards/service_keyboards.py:33 | the label starts with `№` and the number, and holds the client, the car and the amount between ` - ` separators, and the status in parentheses, each with its default |
| ServiceKeyboards.MainMenuTokens | service_bot/app/keyboards/service_keyboards.py:13-18 | the menu carries exactly the tokens `show_service_orders` and `help` |
| ServiceKeyboards.OrdersListShape | service_bot/app/keyboards/service_keyboards.py:22-45 | `len(orders) + 1` rows. Row `i` is the single button of order `i` with token `service_order_` + its number. The last row is the single back button |
| ServiceKeyboards.OrderButtonDefaults | service_bot/app/keyboards/service_keyboards.py:27-33 | an order with only a number gets client "Клиент", car "Автомобиль", amount 0 and an empty status in its label |
| ServiceKeyboards.GetServiceOrdersListKeyboard | service_bot/app/keyboards/service_keyboards.py:22-45 | the loop over the orders, then the back row, builds exactly the list layout |
| ServiceKeyboards.OrdersListTokens | service_bot/app/keyboards/service_keyboards.py:34-43 | the list carries `service_back_to_menu`, and every other token starts with `service_order_` |
| ServiceKeyboards.OrderActions | service_bot/app/keyboards/service_keyboards.py:47-60 | two rows of two buttons: `service_accept_N` and `service_reject_N`, then `show_service_orders` and `service_back_to_menu` |
| ServiceKeyboards.GetServiceOrderActionsKeyboard | service_bot/app/keyboards/service_keyboards.py:47-60 | building the actions keyboard row by row gives exactly that layout |
| ServiceKeyboards.OrderActionsTokens | service_bot/app/keyboards/service_keyboards.py:51-58 | the actions keyboard carries exactly the accept and reject tokens for `N` and the two fixed tokens |
| StaffKeyboards.MainMenu | service_bot/app/keyboards/staff_keyboards.py:9-20 | two single-button rows, `show_orders` and then `help` |
| StaffKeyboards.GetStaffMainMenu | service_bot/app/keyboards/staff_keyboards.py:9-20 | building the menu row by row gives exactly that layout |
| StaffKeyboards.OrderButtonText | service_bot/app/keyboards/staff_keyboards.py:32 | the label starts with `№` and the number, and holds the client and the amount between ` - ` separators, and the status in parentheses; there is no car, which `OrderButtonIgnoresCar` states |
| StaffKeyboards.OrderButtonIgnoresCar | service_bot/app/keyboards/staff_keyboards.py:26-32 | the label does not depend on the order's `car`, present or missing |
| StaffKeyboards.OrdersListShape | service_bot/app/keyboards/staff_keyboards.py:22-44 | `len(orders) + 1` rows in input order. Row `i`'s token is `order_` + its number. The last row is the single `back_to_menu` button |
| StaffKeyboards.OrderButtonDefaults | service_bot/app/keyboards/staff_keyboards.py:27-32 | an order with only a number gets client "Клиент", amount 0 and an empty status, and no car, in its label |
| StaffKeyboards.GetOrdersListKeyboard | service_bot/app/keyboards/staff_keyboards.py:22-44 | the loop over the orders, then the back row, builds exactly the list layout |
| StaffKeyboards.OrderActions | service_bot/app/keyboards/staff_keyboards.py:46-59 | two rows of two buttons: `accept_N` and `reject_N`, then `show_orders` and `back_to_menu` |
| StaffKeyboards.GetOrderActionsKeyboard | service_bot/app/keyboards/staff_keyboards.py:46-59 | building the actions keyboard row by row gives exactly that layout |
| StaffKeyboards.TokenRoundTrip | service_bot/app/keyboards/staff_keyboards.py:36-52 | cutting its own prefix off an emitted token gives back exactly the number, whatever it holds. The other two prefixes do not match. No emitted token equals `show_orders` or `back_to_menu` |
| StaffKeyboards.OrdersListTokens | service_bot/app/keyboards/staff_keyboards.py:26-42 | the list carries `back_to_menu`, and every other token gives back some order's number once `order_` is cut off |
| ServiceCallbacks.SplitTwoWords | service_bot/app/handlers/service_handlers.py:124 | two `_`-free words, each followed by `_`, are the first two fields of the split |
| ServiceCallbacks.SplitPrefixed | service_bot/app/handlers/service_handlers.py:124 | a prefixed token splits into `service`, the action word, and then the fields of the number |
| ServiceCallbacks.PrefixedHasNumber | service_bot/app/handlers/service_handlers.py:124 | data that starts with `service_order_`, `service_accept_` or `service_reject_` has a third `_`-separated field |
| ServiceCallbacks.OrderNumberOf | service_bot/app/handlers/service_handlers.py:124 | `split("_")[2]` exists for every token that passed one of the three prefix filters |
| ServiceCallbacks.RoutedHasNumber | service_bot/app/handlers/service_handlers.py:121-155 | the details, accept and reject handlers are picked only for data whose `split("_")[2]` exists, so none of them raises IndexError |
| ServiceCallbacks.OrderNumberRoundTrip | service_bot/app/handlers/service_handlers.py:124 | decoding an emitted token gives the number's first `_`-separated segment. So it gives back the number itself exactly when the number has no `_` |
| ServiceCallbacks.ShowServiceOrders | service_bot/app/handlers/service_handlers.py:95-119 | acknowledge, GET `/service-orders`, then one reply. The reply is the empty-list text, or the list text under the list keyboard (exactly when the list is non-empty), or the error text |
| ServiceCallbacks.ShowServiceOrderDetails | service_bot/app/handlers/service_handlers.py:121-142 | acknowledge, GET `/service-orders/` + the parsed number, then the details under that number's actions keyboard exactly on success, else the error text |
| ServiceCallbacks.AcceptServiceOrder | service_bot/app/handlers/service_handlers.py:144-150 | a notice and one reply without keyboard that contains the parsed number; no API request |
| ServiceCallbacks.RejectServiceOrder | service_bot/app/handlers/service_handlers.py:152-158 | a notice and one reply without keyboard that contains the parsed number; no API request |
| ServiceCallbacks.BackToServiceMenu | service_bot/app/handlers/service_handlers.py:160-168 | acknowledge and reply with the main menu; no API request |
| ServiceCallbacks.HandleCallback | service_bot/app/handlers/service_handlers.py:95-168 | nothing happens exactly when no filter accepts the data. An API request is made exactly for the list and details handlers |
| ServiceCallbacks.DetailsTokenRoutes | service_bot/app/handlers/service_handlers.py:121-127 | a `service_order_` token reaches the details handler, which requests that number exactly when it has no `_` |
| ServiceCallbacks.ListRowReachesDetails | service_bot/app/keyboards/service_keyboards.py:34-38 | pressing row `i` of the list keyboard reaches the details handler, which requests order `i`'s number exactly when it has no `_` |
| ServiceCallbacks.ActionTokenRoutes | service_bot/app/handlers/service_handlers.py:144-158 | accept and reject tokens reach their own handlers, not an earlier-registered one |
| ServiceCallbacks.FixedTokenRoutes | service_bot/app/handlers/service_handlers.py:95-168 | `show_service_orders` and `service_back_to_menu` reach their handlers |
| ServiceCallbacks.ActionsKeyboardRoutes | service_bot/app/keyboards/service_keyboards.py:51-58 | every button of the actions keyboard reaches its own handler. Accept and reject recover the number exactly when it has no `_` |
| ServiceCallbacks.MainMenuRoutes | service_bot/app/keyboards/service_keyboards.py:13-18 | the menu's orders button reaches the list handler, and its `help` button reaches no callback handler of this router |
| ServiceCallbacks.FailedListUsesFallback | service_bot/app/handlers/service_handlers.py:118-119 | a failed list response without `data` is reported with "Неизвестная ошибка" |
| ServiceAuth.DeletionAttemptsAt | service_bot/app/handlers/service_handlers.py:69-73 | attempt `k` deletes message `k` of the list. Each message is attempted once, in list order, and a failed deletion does not stop later ones |
| ServiceAuth.DeletionAttempts | service_bot/app/handlers/service_handlers.py:69-73 | one deletion attempt per id of the list |
| ServiceAuth.RouteMessage | service_bot/app/handlers/service_handlers.py:24-84 | `/start` is taken exactly when the text is that command, in every state. Any other text goes to the login handler exactly in `waiting_for_login` and to the password handler exactly in `waiting_for_password`. With no state, `/help` reaches its handler and any other text reaches none |
| ServiceAuth.HelpWhileWaiting | service_bot/app/handlers/service_handlers.py:24-84 | with handlers tried in registration order, `/help` is taken as the login or the password while those are awaited, and reaches the help handler only with no state |
| ServiceAuth.ServiceAuthRouter.constructor | service_bot/app/handlers/service_handlers.py:22 | the dictionary starts empty and the invariant holds |
| ServiceAuth.ServiceAuthRouter.CmdStart | service_bot/app/handlers/service_handlers.py:24-36 | from any state: the user's entry is removed, welcome then login prompt are sent, and the state becomes `waiting_for_login`. Other users are untouched |
| ServiceAuth.ServiceAuthRouter.ProcessLogin | service_bot/app/handlers/service_handlers.py:38-51 | the entry is replaced by the stripped login and exactly [login message, password prompt]. The password prompt is sent, and the state becomes `waiting_for_password` |
| ServiceAuth.ServiceAuthRouter.ProcessPassword | service_bot/app/handlers/service_handlers.py:53-82 | without an entry: only the restart error is sent, and the dictionary and state are unchanged. Otherwise: the password message is appended, making three ids, and each id is attempted once in order. Then the confirmation with the login and the main menu is sent. The state is cleared, but the entry stays |
| ServiceAuth.ServiceAuthRouter.CmdHelp | service_bot/app/handlers/service_handlers.py:84-93 | only the help text is sent; dictionary and state are unchanged |
| ServiceAuth.ServiceAuthRouter.HandleMessage | service_bot/app/handlers/service_handlers.py:24-93 | the message goes to the first handler whose filter accepts it, with that handler's effect. A message no filter accepts changes nothing |
| ServiceAuth.FreshStart | service_bot/app/handlers/service_handlers.py:24-36 | `/start` to a fresh bot leaves no entry, awaits the login, and sends welcome and prompt |
| ServiceAuth.BeginLogin | service_bot/app/handlers/service_handlers.py:24-51 | start then login leave exactly one entry, with the stripped login and [login message, prompt], awaiting the password |
| ServiceAuth.LoginConversation | service_bot/app/handlers/service_handlers.py:24-82 | a whole login leaves the entry with exactly [login, prompt, password] in arrival order and no state. The log is the three texts, one deletion attempt per id in that order, and the confirmation with the menu |

## Left out

- aiogram I/O:
  - Sending, answering callbacks and deleting messages are recorded as events in a log or in a returned list of reactions.
  - The id the chat gives the password prompt is a parameter (`promptId`).
  - Whether each deletion succeeds is a parameter (`deletes`).
  - `as_markup()` returns the collected rows.
- The order API (`api_service._make_request`) is not part of this model. Its response is an input value (`Orders.Response`).
- `format_service_orders_list` and `format_service_order_details` are not part of this model. They are function parameters, so the model says only where their text goes.
- Loguru logging of a failed deletion is reduced to the `deleted == false` flag of the attempt.
- Async execution and concurrency between updates are not modelled. aiogram can interleave handlers at each `await`, also for one user. Each handler here is one sequential step on the shared state.
- Non-text messages (`message.text` being `None`, where `strip()` raises) are not modelled.
- ServiceAuth.ServiceAuthRouter.ProcessPassword: the password text is stripped and never used in the source, so the model does not compute it. The failure branch behind the constant `auth_successful = True` is kept but cannot run, and the contract states only the success branch.
- Orders.Order: each field is the text Python's f-string gives the value. A key present with the value `null` formats as "None" and is represented as `Some("None")`; a missing key takes the `get` default. `str()` of numbers and floats is not modelled.
- Orders.ClientName: a `client` that is `null` or not a dictionary makes `.get("name", ...)` raise AttributeError (service_keyboards.py:28, staff_keyboards.py:28). This is not modelled; the client is either missing or a dictionary.
- Orders.Response: `status` is compared as an integer. A `data` or `orders` value of an unexpected JSON type is not modelled.
- Text.IsCommand: aiogram's check that an `@mention` names this bot, and its prefix and case options, are not modelled. Only the first word up to `@` is compared with `/name`.
- Keyboard.KeyboardBuilder.AddRow: aiogram splits a row of more than eight buttons. Every call here passes one or two buttons, so this is not modelled.
- The FSM state is kept per user, while aiogram's default storage keys it by chat and user. The model assumes each user talks to the bot in one chat (a private chat, or the user-only FSM strategy). With two chats, a user could reach a fourth id in the entry, and deletions could target the wrong chat. `Valid` and the three-id result of `ProcessPassword` hold only under this assumption.
- A user may sit in `waiting_for_password` with no entry in `user_auth_data`, which is the path at service_handlers.py:59-61. The shown code does not configure the FSM storage, and aiogram's default memory storage lives and dies with the dictionary. The state can still outlive the entry in three ways: a persistent FSM storage that survives a restart, a second chat whose `/start` pops the entry (see the line above), or two interleaved updates where `/start` pops the entry after a password update was already routed. To cover these, the constructor takes the stored states as given, which may still hold states without entries.
- ServiceCallbacks.Route: the `help` token of the mechanics' main menu has no callback handler in this router. `MainMenuRoutes` states this. Whether another router of the application handles it is outside this model.
