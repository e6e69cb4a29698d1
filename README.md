# CabFareFuel fare calculator, modelled in Dafny

This project models the core of CabFareFuel, a taxi fare calculator. It covers:

- the calculator page's eleven pieces of state and the itemised fare they
  determine (base fare, distance and time charges, a fuel surcharge, and the
  fuel or energy cost);
- the handlers that overwrite that state: fare-model cards, zone presets, the
  sanitising input fields, and restoring saved settings with its "falsy means
  default" rule;
- the transaction body the page posts on export;
- the shared schema: three string enumerations, the breakdown record, and the
  `transactions` table with its insert shape;
- the server's in-memory store of users and transactions.

Modules follow the source files:

| module | file |
|---|---|
| `Wrappers` | `Option` |
| `Schema` | `shared/schema.ts` |
| `FareInputs` | `FareInputs.tsx` |
| `FuelInputs` | `FuelInputs.tsx` |
| `FareModelSelector` | `FareModelSelector.tsx` |
| `PresetButtons` | `PresetButtons.tsx` |
| `CalculatorPage` | `pages/Calculator.tsx` |
| `Storage` | `server/storage.ts` |

Modelling choices:

- Amounts are `real`, an exact idealisation of JavaScript numbers; floating-point rounding is not modelled.
- A handler's parsed input is `Option<real>`, where `None` is the `NaN` that
  `parseFloat` returns for text that does not parse.
- The page's state is the class `CalculatorPage.Calculator`. Its handler
  methods update its fields. Each method is proved equal to a pure transition
  on `Settings` (`WithFareModel`, `WithPreset`, `WithEdit`, `Restore`), and
  the lemmas are stated about those transitions. The class also holds the
  `cabFareSettings` entry that the page's save effect writes. Every handler
  leaves that entry equal to the saved form of the new state.
- The store is the class `Storage.MemStorage`. Each JavaScript `Map` becomes a
  Dafny `map` plus the sequence of its keys in insertion order, because
  `Map.values()` yields values in that order. The fresh id (`randomUUID()`)
  and the clock (`new Date()`) are parameters. A fresh id must not already be
  a key.
- A nullable column in an insert body has three states: absent, `null`, or
  given (`Schema.Nullish`). The store's `?? null` turns the first two into
  `null`.

## Model

| member | source | states |
|---|---|---|
| Schema.EnumerationsHaveThreeValues | CabFareFuel/shared/schema.ts:46-48 | Each of the fare-model, fuel-type and surcharge-type unions has exactly three values, and no two values of one union share a string name |
| Schema.ParseFareModel | CabFareFuel/shared/schema.ts:46 | A stored string reads back as the fare model with that name, or as nothing when no model has it |
| Schema.ParseFuelType | CabFareFuel/shared/schema.ts:47 | A stored string reads back as the fuel type with that name, or as nothing when none has it |
| Schema.ParseSurchargeType | CabFareFuel/shared/schema.ts:48 | A stored string reads back as the surcharge type with that name ("none" included), or as nothing |
| Schema.TransactionColumnsDeclared | CabFareFuel/shared/schema.ts:12-29 | The table has 16 columns. Only `fuelSurchargeType`, `fuelSurchargeAmount` and `breakdown` are nullable. The decimal columns are exactly the rate, trip, mpg, price, surcharge-amount, total and fuel-cost columns, each of precision 10 and scale 2 |
| Schema.SuppliedColumns | CabFareFuel/shared/schema.ts:12-29 | `id` is the first column and `createdAt` the last; none of the columns between them is named `id` or `createdAt` or has a database default |
| Schema.Omit | CabFareFuel/shared/schema.ts:36-39 | `omit` keeps exactly the columns whose names are not omitted, never more columns than it was given |
| Schema.InsertShapeOmitsGeneratedColumns | CabFareFuel/shared/schema.ts:36-39 | The insert shape is the table without `id` and `createdAt`, the other 14 columns in declaration order, and none of them has a database default |
| Schema.Nullish.OrNull | CabFareFuel/server/storage.ts:46-48 | `x ?? null` is a value exactly when `x` was given, and then it is that value; absent and `null` both become `null` |
| Schema.ToNullish | CabFareFuel/shared/schema.ts:41-44 | A nullable stored value written into an insert body is never absent, and `?? null` gives the stored value back |
| Schema.InsertPart | CabFareFuel/shared/schema.ts:41-44 | Dropping `id` and `createdAt` from a stored record gives an insert record whose nullable fields are all present (given or `null`) |
| FareInputs.Max | CabFareFuel/client/src/components/FareInputs.tsx:46 | `Math.max` is an upper bound of both arguments and equals one of them |
| FareInputs.NonNegative | CabFareFuel/client/src/components/FareInputs.tsx:44-47 | The clamp every amount field applies: the result is never negative, a non-negative number passes through, and a negative number or `NaN` becomes 0 |
| FareInputs.NonNegativeIdempotent | CabFareFuel/client/src/components/FareInputs.tsx:45-46 | Clamping a clamped value changes nothing |
| FareInputs.NonNegativeMonotone | CabFareFuel/client/src/components/FareInputs.tsx:45-46 | The clamp preserves order, and it is the identity exactly on non-negative numbers |
| FuelInputs.PositiveMpg | CabFareFuel/client/src/components/FuelInputs.tsx:59-62 | The efficiency handler always yields a positive number. A positive input passes through; zero, a negative number and `NaN` all become 0.1 |
| FuelInputs.PositiveMpgIdempotent | CabFareFuel/client/src/components/FuelInputs.tsx:60-61 | Passing the handler's own output through it again changes nothing |
| FuelInputs.EfficiencyLabel | CabFareFuel/client/src/components/FuelInputs.tsx:52 | The efficiency label reads "kWh per Mile" exactly for an electric vehicle, and "MPG" otherwise |
| FuelInputs.PriceLabel | CabFareFuel/client/src/components/FuelInputs.tsx:69 | The price label reads "Cost per kWh" exactly for an electric vehicle, and "Gas Price" otherwise |
| FuelInputs.SurchargeAmountLabel | CabFareFuel/client/src/components/FuelInputs.tsx:108-111 | The surcharge amount input appears exactly when the type is not "none". It is labelled "Flat Surcharge Amount" exactly for flat and "Surcharge per Mile" exactly for per mile |
| FuelInputs.LabelsFollowFuelType | CabFareFuel/client/src/components/FuelInputs.tsx:52-69 | The two labels switch together: "kWh per Mile" exactly when "Cost per kWh", and "MPG" exactly when "Gas Price" |
| FareModelSelector.Find | CabFareFuel/client/src/pages/Calculator.tsx:79 | `find` returns an option from the array that carries the requested id, and returns nothing exactly when no option carries it |
| FareModelSelector.FindFareModel | CabFareFuel/client/src/pages/Calculator.tsx:79 | The lookup made on selection always finds a table entry, and that entry is for the requested model |
| FareModelSelector.TableCoversEveryModel | CabFareFuel/client/src/components/FareModelSelector.tsx:14-39 | Each fare model has one and only one table entry, so the lookup the page makes on selection always succeeds and returns that entry |
| FareModelSelector.TableRates | CabFareFuel/client/src/components/FareModelSelector.tsx:15-38 | The lookup yields budget 5.00/1.50/0.25, balanced 7.00/2.00/0.35 and premium 10.00/3.00/0.50, with their names and descriptions |
| FareModelSelector.RatesIncreaseWithTier | CabFareFuel/client/src/components/FareModelSelector.tsx:14-39 | The table is ordered budget, balanced, premium, and each of the three rates strictly increases along it |
| FareModelSelector.Cards | CabFareFuel/client/src/components/FareModelSelector.tsx:49-57 | One card per table entry, in table order, each showing its entry |
| FareModelSelector.ExactlyOneCardHighlighted | CabFareFuel/client/src/components/FareModelSelector.tsx:52-65 | A card wears the ring and check mark exactly when its id is the selected model, and exactly one card does |
| PresetButtons.Buttons | CabFareFuel/client/src/components/PresetButtons.tsx:60-70 | One button per preset |
| PresetButtons.ButtonsPassTheirPreset | CabFareFuel/client/src/components/PresetButtons.tsx:60-70 | Each button shows its preset's name and its click passes exactly that preset; the button keys are distinct |
| PresetButtons.PresetsDistinct | CabFareFuel/client/src/components/PresetButtons.tsx:13-46 | There are four presets, `nyc`, `westchester`, `newark` and `longisland` in that order, with distinct ids |
| PresetButtons.PresetModelsAndRates | CabFareFuel/client/src/components/PresetButtons.tsx:13-46 | NYC is the only premium preset, and every preset rate is strictly positive |
| PresetButtons.PresetRatesNeedNotMatchModel | CabFareFuel/client/src/components/PresetButtons.tsx:22-29 | Westchester is a balanced preset whose base fare differs from the balanced table entry's |
| CalculatorPage.CalculateFare | CabFareFuel/client/src/pages/Calculator.tsx:98-130 | The breakdown adds up: the subtotal is base fare plus distance, time and surcharge, and the total is the subtotal plus fuel. The base fare is passed through |
| CalculatorPage.FuelCost | CabFareFuel/client/src/pages/Calculator.tsx:102-109 | With an efficiency that is not positive the fuel cost is 0; with non-negative amounts it is never negative |
| CalculatorPage.FuelSurcharge | CabFareFuel/client/src/pages/Calculator.tsx:111-116 | "none" adds nothing; with non-negative amounts the surcharge is never negative |
| CalculatorPage.FareNonNegative | CabFareFuel/client/src/pages/Calculator.tsx:98-119 | With the seven amounts non-negative and any efficiency, zero or negative included, every item of the breakdown is non-negative and the total is at least the subtotal |
| CalculatorPage.DistanceAndTimeCharges | CabFareFuel/client/src/pages/Calculator.tsx:99-100 | The distance charge is distance times cost per mile; the time charge is duration times cost per minute |
| CalculatorPage.NoEfficiencyNoFuelCost | CabFareFuel/client/src/pages/Calculator.tsx:102-103 | With an efficiency that is not positive, the fuel cost is 0 whatever else is set |
| CalculatorPage.FuelCostByFuelType | CabFareFuel/client/src/pages/Calculator.tsx:102-109 | With a positive efficiency an EV pays distance × kWh per mile × price. A combustion vehicle pays for the gallons it burns: fuel cost × mpg = distance × price |
| CalculatorPage.FuelCostProportionalToDistance | CabFareFuel/client/src/pages/Calculator.tsx:102-109 | Scaling the distance by k scales the fuel cost by k, for every fuel type and efficiency |
| CalculatorPage.SurchargeByType | CabFareFuel/client/src/pages/Calculator.tsx:111-116 | The surcharge is 0 for "none" (and the amount then does not affect the fare at all), the amount for flat, and distance × amount for per mile |
| CalculatorPage.FareModelDoesNotEnterFare | CabFareFuel/client/src/pages/Calculator.tsx:98-130 | The selected fare model does not enter the fare; only the rates do |
| CalculatorPage.ZeroTrip | CabFareFuel/client/src/pages/Calculator.tsx:98-119 | A trip of no distance and no time has no distance, time or fuel charge, and costs the base fare plus the surcharge when it is flat |
| CalculatorPage.FuelCostMonotoneInDistance | CabFareFuel/client/src/pages/Calculator.tsx:102-109 | With well-formed settings, a longer distance never lowers the fuel cost |
| CalculatorPage.FuelSurchargeMonotoneInDistance | CabFareFuel/client/src/pages/Calculator.tsx:111-116 | With well-formed settings, a longer distance never lowers the surcharge |
| CalculatorPage.DistancePartMonotone | CabFareFuel/client/src/pages/Calculator.tsx:99-116 | The distance charge, surcharge and fuel cost together never decrease with distance |
| CalculatorPage.TotalMonotoneInDistance | CabFareFuel/client/src/pages/Calculator.tsx:98-130 | With well-formed settings, a longer trip never costs less in total |
| CalculatorPage.InitialBreakdown | CabFareFuel/client/src/pages/Calculator.tsx:21-32 | The state the page opens with gives distance 16.00, time 7.00, surcharge 2.00, fuel 1.12, subtotal 32.00 and total 33.12 |
| CalculatorPage.WorkedExamples | CabFareFuel/client/src/pages/Calculator.tsx:102-116 | 100 miles at 25 mpg and 4.00 a gallon cost 16.00 in fuel; 10 miles at 0.50 a mile add a 5.00 surcharge |
| CalculatorPage.WithFareModel | CabFareFuel/client/src/pages/Calculator.tsx:77-85 | Selecting a model sets it and copies the matching table entry's three rates. Trip, fuel and surcharge fields stay the same |
| CalculatorPage.WithPreset | CabFareFuel/client/src/pages/Calculator.tsx:87-91 | Selecting a preset sets its model and its own three rates. Trip, fuel and surcharge fields stay the same |
| CalculatorPage.WithEdit | CabFareFuel/client/src/pages/Calculator.tsx:251-272 | No edit changes the fare model. An edit never makes an amount negative, and after an efficiency edit the efficiency is positive |
| CalculatorPage.HandlersKeepWellFormed | CabFareFuel/client/src/pages/Calculator.tsx:77-91 | The opening state is well formed: amounts are non-negative and the efficiency is positive. Model selection, any preset and every field edit keep it well formed |
| CalculatorPage.EditedEfficiencyIsPositive | CabFareFuel/client/src/components/FuelInputs.tsx:59-62 | After any efficiency edit the efficiency is positive, so the fare takes its efficiency branch |
| CalculatorPage.EditTouchesOneField | CabFareFuel/client/src/pages/Calculator.tsx:251-272 | Each of the ten edits changes only its own field, to the clamped value for amounts, the positive clamp for the efficiency, and the chosen value for the two choices |
| CalculatorPage.EditIdempotent | CabFareFuel/client/src/pages/Calculator.tsx:251-272 | Applying the same edit twice gives the state one application gives |
| CalculatorPage.BalancedIsInitial | CabFareFuel/client/src/components/FareModelSelector.tsx:23-30 | Selecting "balanced" on the opening state changes nothing: the balanced entry holds the opening rates |
| CalculatorPage.PresetRatesNotTableRates | CabFareFuel/client/src/pages/Calculator.tsx:87-91 | After the Westchester preset the model is balanced, but re-selecting balanced would change the rates |
| CalculatorPage.Persist | CabFareFuel/client/src/pages/Calculator.tsx:60-74 | The saved object carries all eleven fields, each with the state's value |
| CalculatorPage.NumberOr | CabFareFuel/client/src/pages/Calculator.tsx:40-49 | `saved \|\| default` for a number gives the saved value when it is present and non-zero, and the default when it is missing or 0 |
| CalculatorPage.Restore | CabFareFuel/client/src/pages/Calculator.tsx:39-49 | Field by field: a choice is restored when saved, and otherwise gets the opening value. A number is restored when it is present and non-zero, and otherwise gets the opening value. Missing fields may be any subset |
| CalculatorPage.EmptySavedRestoresInitial | CabFareFuel/client/src/pages/Calculator.tsx:39-49 | The fallback defaults are exactly the opening state |
| CalculatorPage.RestoreRoundTrip | CabFareFuel/client/src/pages/Calculator.tsx:39-75 | Saving and then restoring gives back the same state if and only if none of its numbers is 0 |
| CalculatorPage.SavedZeroReloadsDefault | CabFareFuel/client/src/pages/Calculator.tsx:39-49 | A saved 0 distance, duration, base fare or surcharge amount reloads as 8, 20, 7.0 or 2.0; the three choices reload as saved |
| CalculatorPage.RestoreKeepsWellFormed | CabFareFuel/client/src/pages/Calculator.tsx:39-49 | Restoring what a well-formed state saved gives a well-formed state |
| CalculatorPage.TransactionPayload | CabFareFuel/client/src/pages/Calculator.tsx:166-181 | The surcharge type and amount are null exactly when the type is "none". The total, fuel cost and breakdown sent are the computed fare's |
| CalculatorPage.PayloadDeterminesFare | CabFareFuel/client/src/pages/Calculator.tsx:166-181 | The posted body decodes back to the state it came from. The one exception is the unused amount of a "none" surcharge. Recomputing the fare from the decoded state gives the posted breakdown |
| CalculatorPage.Calculator.constructor | CabFareFuel/client/src/pages/Calculator.tsx:21-32 | The page opens in the initial state, and the stored entry holds that state |
| CalculatorPage.Calculator.Calculation | CabFareFuel/client/src/pages/Calculator.tsx:132 | The displayed fare is `CalculateFare` of the current state. It adds up, and it has no negative item when the amounts are non-negative |
| CalculatorPage.Calculator.HandleFareModelSelect | CabFareFuel/client/src/pages/Calculator.tsx:77-85 | The setters leave the page in the state `WithFareModel` describes, and the save effect stores that state |
| CalculatorPage.Calculator.HandlePresetSelect | CabFareFuel/client/src/pages/Calculator.tsx:87-91 | The setters leave the page in the state `WithPreset` describes, and the save effect stores that state |
| CalculatorPage.Calculator.HandleEdit | CabFareFuel/client/src/pages/Calculator.tsx:251-272 | An input's change handler stores its clamped value in its own field, as `WithEdit` describes, and the save effect stores the new state |
| CalculatorPage.Calculator.LoadFromLocalStorage | CabFareFuel/client/src/pages/Calculator.tsx:34-75 | A saved object sets each field to its saved value or its default. With nothing saved, or text that does not parse, the state is unchanged. Either way the save effect then stores the state |
| CalculatorPage.Calculator.TransactionData | CabFareFuel/client/src/pages/Calculator.tsx:166-181 | The posted body is the page state's payload, carries the displayed breakdown, and nulls the surcharge amount exactly when there is no surcharge |
| CalculatorPage.Session | CabFareFuel/client/src/pages/Calculator.tsx:56-58 | Opening the page, restoring a well-formed saved state, applying a preset and typing any efficiency gives a fare that adds up with no negative item |
| Storage.Normalised | CabFareFuel/server/storage.ts:46-48 | After `?? null` none of the three nullable fields is absent |
| Storage.NewTransaction | CabFareFuel/server/storage.ts:40-49 | The new record has the generated id and timestamp, and each absent nullable field becomes null |
| Storage.NewTransactionCarriesInsert | CabFareFuel/server/storage.ts:42-49 | Dropping id and timestamp from a new record gives back the insert record with `?? null` applied. Adding them back rebuilds any record exactly |
| Storage.InsertByTime | CabFareFuel/server/storage.ts:61 | One insertion step of the sort adds exactly the given record |
| Storage.InsertByTimeKeepsOrder | CabFareFuel/server/storage.ts:61 | Inserting into a newest-first sequence keeps it newest first |
| Storage.SortNewestFirst | CabFareFuel/server/storage.ts:59-61 | The sort yields a permutation of its input ordered by `createdAt`, newest first |
| Storage.Listing | CabFareFuel/server/storage.ts:58-62 | Sort-then-slice returns min(limit, count) records, newest first, all drawn from the input. No record left out is newer than a kept one, and all records are kept when the limit covers the input |
| Storage.PrefixIsNewest | CabFareFuel/server/storage.ts:61-62 | Slicing a newest-first sequence keeps records no older than any it drops |
| Storage.FindByUsername | CabFareFuel/server/storage.ts:28-30 | `find` returns the first user with the name, or nothing when no user has it |
| Storage.MemStorage.constructor | CabFareFuel/server/storage.ts:18-21 | The store starts with no users and no transactions |
| Storage.MemStorage.AllTransactions | CabFareFuel/server/storage.ts:59 | `Array.from(values())` lists the stored transactions in insertion order |
| Storage.MemStorage.AllUsers | CabFareFuel/server/storage.ts:28 | `Array.from(values())` lists the stored users in insertion order |
| Storage.MemStorage.GetUser | CabFareFuel/server/storage.ts:23-25 | Finds the user exactly when the id is a key, and then returns the user stored under it |
| Storage.MemStorage.GetUserByUsername | CabFareFuel/server/storage.ts:27-31 | Returns a stored user with that name, the earliest inserted one, and returns nothing exactly when no stored user has it |
| Storage.MemStorage.CreateUser | CabFareFuel/server/storage.ts:33-38 | Stores the insert fields with the fresh id, appends the id to the insertion order, and leaves the transactions alone |
| Storage.MemStorage.CreateTransaction | CabFareFuel/server/storage.ts:40-52 | Stores the new record under the fresh id and grows the store by one. Every earlier record and the users stay as they were |
| Storage.MemStorage.GetTransaction | CabFareFuel/server/storage.ts:54-56 | Finds a record exactly when the id is a key, and returns the record stored under that id |
| Storage.MemStorage.GetAllTransactions | CabFareFuel/server/storage.ts:58-63 | Returns at most `limit` records (50 by default), newest first, each one stored. No stored record left out is newer than a listed one. When the limit covers the store, every stored record appears exactly once |
| Storage.MemStorage.ListedAreStored | CabFareFuel/server/storage.ts:59-62 | Every listed record is the one stored under its own id |
| Storage.MemStorage.ListingKeepsNewest | CabFareFuel/server/storage.ts:59-62 | A stored record the listing leaves out is no newer than any record it lists |
| Storage.MemStorage.ListingComplete | CabFareFuel/server/storage.ts:59-62 | With a limit at least the store's size, each stored record occurs exactly once in the listing |
| Storage.CreateThenGet | CabFareFuel/server/storage.ts:40-56 | A record just created is found under its id; an id never used finds nothing |

## Left out

- Rendering is not modelled: JSX layout, CSS classes, test ids, icons, the theme toggle and the receipt display. Only the label, visibility, highlight and click rules are.
- The PDF receipt (`generateReceiptPDF`), the email button and every toast are not modelled. They are output only.
- `localStorage`, `JSON.stringify` and `JSON.parse` are not modelled. The saved object arrives as `Option<SavedSettings>`. `None` means nothing was saved or the text did not parse. A saved field is `None` when it is missing, `null` or a `NaN` written as `null`.
- CalculatorPage.Restore: a saved enumeration string outside its union, or a field of the wrong JSON type, is not modelled. `JSON.parse` gives untyped data, and the page would copy such a value into its state.
- The save effect's timing is not modelled: React runs it after rendering, and on mount before the loaded values render. Here every handler writes the stored entry as its last step, so the entry always holds the current state.
- `useMutation` and `apiRequest` are not modelled. The export builds the body (`TransactionData`) but does not send it.
- IEEE-754 arithmetic, rounding, `parseFloat`, `toString` and `toFixed` are not modelled. Amounts are exact reals, and the body's decimal strings carry the numbers they denote.
- `randomUUID()` and `new Date()` are parameters. Fresh ids are required not to be keys already, which `randomUUID` makes overwhelmingly likely.
- Storage operations are synchronous. The `async`/`Promise` wrappers are not modelled.
- Storage.MemStorage.GetAllTransactions: the limit is a `nat`. A negative or `NaN` limit, which `slice` treats specially, is excluded.
- Storage.SortNewestFirst: it is a stable insertion sort on a sequence. The in-place sort of the fresh array is a function here. The model fixes one tie order among equal timestamps (the insertion order), but no lemma states it.
- The `users` table declaration and the zod insert schemas are not modelled beyond the `User` and `InsertUser` records. The zod validation runs in the routes, which are not part of this model.
- `server/routes.ts`, `client/src/lib/pdfExport.ts`, `ReceiptDisplay.tsx` and the component examples are not part of this model.
