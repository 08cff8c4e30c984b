# wikipolicyd in Dafny

A model of the logic of `wikipolicyd`, a small daemon that buys "turbo"
high-speed data from the WikiLink internet provider under a daily cap. Three
parts of the program carry logic, and each is one module here:

- **Usage ledger** (`Storage`, from `wikipolicyd/db.py`). `Db` counts the GB
  bought on each calendar date in a key-value store, under the key
  `gb_used:` followed by the date in ISO 8601 calendar-date form
  `YYYY-MM-DD` (`Dates.IsoFormat`). `used_gb` reads a date's count, and 0
  when there is none. `add_used_gb` reads the count once, writes the count
  plus the amount once, and raises when the store refuses the write. The
  store is the class `KeyValueStore`: its contents are a `map<string, int>`,
  and it keeps a ghost log of the `get`/`set` calls made on it. Whether a
  `set` succeeds is decided by the environment and passed in as `accepted`.
  The same semantics as values: `UsedIn` and `Added` on maps, and `Replay`
  for a series of additions, with the sum, default and frame laws proved
  about them.
- **Policy** (`Policies`, from `wikipolicyd/policy.py`). `Policy.FromConfig`
  checks the `data_limit` configuration string step by step, as `__init__`
  does: the `^\d+G$` match, `int(...)` of all but the last character, and
  positivity. Each failure is an error value. `ParseDataLimit` is the same
  check as a function, and the lemmas about it are stated on that function.
  `Policy.Unvalidated` is the `read_config=False` path, which stores its
  arguments unchecked. `Policy.DataLimit` is `data_limit`: it returns `None`
  (no cap) on the exception date and the cap on every other date.
- **Account page reader** (`Settings`, from `wikipolicyd/settings_server.py`).
  `RealWikilinkSettingsServer` caches the balance, plan name and remaining
  high-speed data read from the provider's account page. A page fetch is a
  `Fetch` value: `None` when the login request raised, otherwise the captured
  `target` group of each of the three searches, or `None` for a search that
  did not match. `RefreshData` stamps the update time once the page has
  arrived. It then sets balance, plan and remaining data in that order and
  fails at the first search that found nothing. The getters refresh only when
  strictly more than the 1-second window has passed (1000 on a millisecond
  clock). The pure functions `Refresh` and `Poll` on a `Cache` value state
  the same behaviour, and the methods are proved equal to them. The balance
  text `R,K` becomes `R * 100 + K` kopeikas, exactly as written: `K` is not
  checked to have two digits, so `"1,5"` is 105 kopeikas.

Consequences proved along the way:
- The update time is stamped before parsing. So after a refresh that fails
  part-way, every getter called within the window reports no error and
  returns the fields as the failed refresh left them (`RefreshHeldForWindow`).
- `"10G\n"` passes `re.match(r'^\d+G$', ...)`, because `$` also matches
  before a final newline, and is then refused by `int("10G")`
  (`ParseDataLimitExamples`).

The code leaves two inputs unchecked: `add_used_gb` accepts any `gb`,
including 0 and negative amounts, and the `read_config=False` path accepts any
cap, including 0 and negative ones.

## Model

| member | source | states |
|---|---|---|
| `Dates.IsoFormat` | wikipolicyd/db.py:31 | `date.isoformat()` is 10 characters with `-` at positions 4 and 7 |
| `Dates.IsoFormatFields` | wikipolicyd/db.py:31 | the year, month and day fields of the ISO text are digits that read back as the date's year, month and day |
| `Dates.IsoFormatInjective` | wikipolicyd/db.py:30-31 | two dates have the same ISO text if and only if they are the same date |
| `Dates.IsoFormatExample` | wikipolicyd/db.py:31 | 2018-09-05 prints as `2018-09-05`, year 7 as `0007` (zero padding) |
| `Storage.GbUsedKey` | wikipolicyd/db.py:30-31 | the key is `gb_used:` followed by the 10-character date text |
| `Storage.UsedIn` | wikipolicyd/db.py:20-22 | what `used_gb(d)` reads from store contents: the value under `d`'s key, or 0 when there is none |
| `Storage.Added` | wikipolicyd/db.py:24-27 | the store contents after a successful `add_used_gb(d, gb)`: `d`'s key set to its old count plus `gb` |
| `Storage.GbUsedKeyInjective` | wikipolicyd/db.py:30-31 | two dates share a store key if and only if they are the same date |
| `Storage.UsedInAbsent` | wikipolicyd/db.py:20-22 | a date with no entry in the store reads as 0 |
| `Storage.UsedInPresent` | wikipolicyd/db.py:22 | a date with an entry reads as exactly the stored value |
| `Storage.AddedReads` | wikipolicyd/db.py:24-27 | after adding `gb` on `d`, `d` reads as its old count plus `gb` and every other date reads as before |
| `Storage.AddedFrame` | wikipolicyd/db.py:27 | an addition on `d` writes `d`'s key only and leaves every other key's value as it was |
| `Storage.ReplayReads` | wikipolicyd/db.py:24-27 | after any series of successful additions, each date reads as its starting count plus the sum of the amounts added on it |
| `Storage.FreshLedgerReads` | wikipolicyd/db.py:20-27 | from an empty store, a date reads as the sum added on it, and 0 if nothing was ever added on it |
| `Storage.ReplayOrderIndependent` | wikipolicyd/db.py:26-27 | swapping two batches of additions changes no date's count |
| `Storage.ReplayNonNegative` | wikipolicyd/db.py:26-27 | counts stay non-negative when only non-negative amounts are added |
| `Storage.KeyValueStore.constructor` | wikipolicyd/db.py:18 | the store starts with the loaded contents and no calls made |
| `Storage.KeyValueStore.Get` | wikipolicyd/db.py:22 | `get(key, default)` returns the stored value or the default, changes no contents and logs one read |
| `Storage.KeyValueStore.Set` | wikipolicyd/db.py:27 | `set` reports whether it took the write, stores the value only if it did, and logs one write |
| `Storage.Db.constructor` | wikipolicyd/db.py:17-18 | a new ledger is a fresh store holding the loaded contents |
| `Storage.Db.UsedGb` | wikipolicyd/db.py:20-22 | `used_gb(d)` returns the stored count for `d`, or 0, after exactly one store read of `d`'s key |
| `Storage.Db.AddUsedGb` | wikipolicyd/db.py:24-28 | on an accepted write the store becomes the old store with `d`'s count raised by `gb`; on a refused write it fails with `CouldNotUpdateDb` and the store is unchanged; either way exactly one read then one write of `d`'s key, the old count plus `gb`, is made |
| `Storage.Db.AddOneUsedGb` | wikipolicyd/db.py:24-27 | the default-amount call behaves as `add_used_gb(d, 1)`: an accepted write raises `d`'s count by exactly 1, a refused one fails and leaves the store unchanged, and exactly one read then one write of `d`'s key is made |
| `Policies.MatchesDataLimitPattern` | wikipolicyd/policy.py:23 | `re.match(r'^\d+G$', s)`: digits then `G`, optionally followed by one final newline |
| `Policies.ParseDataLimit` | wikipolicyd/policy.py:22-30 | the pattern check, then `int` of all but the last character, then positivity, in that order, each failing with its own error |
| `Policies.ParseDataLimitAccepts` | wikipolicyd/policy.py:22-30 | a `data_limit` string is accepted if and only if it is digits followed by one `G` with a positive value, and the cap is then that value |
| `Policies.ParseDataLimitOfDigits` | wikipolicyd/policy.py:28-30 | digits followed by `G` give the digits' value as the cap, or the non-positive error when that value is 0 |
| `Policies.ParseDataLimitRoundTrip` | wikipolicyd/policy.py:23-28 | any positive cap written as zero-padded digits and `G` is read back as that cap |
| `Policies.ParseDataLimitExamples` | wikipolicyd/policy.py:22-30 | `10G` gives 10 and `007G` gives 7; `0G` is refused as non-positive; `10`, `G`, `-5G` and `10GB` are refused by the pattern; `10G\n` passes the pattern and is refused by `int` |
| `Policies.Policy.Unvalidated` | wikipolicyd/policy.py:16-19 | the `read_config=False` path stores the given cap and exception date unchecked, the date defaulting to none |
| `Policies.Policy.FromConfig` | wikipolicyd/policy.py:21-35 | a missing `data_limit` or one the checks refuse fails with that check's error; otherwise the policy is new, its cap is the parsed, positive value and its exception date is the configured one |
| `Policies.Policy.DataLimit` | wikipolicyd/policy.py:37-41 | the result is `None` exactly when the exception date is set and equals the date, and the cap otherwise |
| `Settings.ShouldRefresh` | wikipolicyd/settings_server.py:49-50 | a refresh is due exactly when `now - last > 1000` ms, strictly |
| `Settings.ShouldRefreshMonotone` | wikipolicyd/settings_server.py:49-50 | once a refresh is due it stays due as the clock advances |
| `Settings.IndexOf` | wikipolicyd/settings_server.py:69 | the split point is the first comma, or the end when there is none |
| `Settings.BalanceKopeikas` | wikipolicyd/settings_server.py:68-70 | the converted balance is never negative |
| `Settings.BalanceKopeikasOfParts` | wikipolicyd/settings_server.py:68-70 | any digit strings `R` and `K` joined by a comma form a balance text worth `R * 100 + K` kopeikas |
| `Settings.BalanceKopeikasExample` | wikipolicyd/settings_server.py:68-70 | `12,34` gives 1234 kopeikas |
| `Settings.BalanceKopeikasUncheckedKopeikas` | wikipolicyd/settings_server.py:69-70 | the kopeika part is not range-checked: `1,5` gives 105 and `1,234` gives 334 |
| `Settings.RemainingMbCeil` | wikipolicyd/settings_server.py:82-83 | `math.ceil(float(text))` of the `\d+(\.\d)?` capture, as the exact decimal ceiling |
| `Settings.RemainingMbIsCeiling` | wikipolicyd/settings_server.py:82-83 | the remaining amount is the least whole number of MB not below the captured decimal amount |
| `Settings.RemainingMbExamples` | wikipolicyd/settings_server.py:82-83 | `512` gives 512, `12.3` gives 13, `12.0` gives 12, `0.0` gives 0 |
| `Settings.Refresh` | wikipolicyd/settings_server.py:52-86 | `_refresh_data` on cached values: a failed request changes nothing; otherwise stamp the time, then set balance, plan and remaining data in order, failing at the first search with no match |
| `Settings.Poll` | wikipolicyd/settings_server.py:88-101 | the getters' first step: `Refresh` when a refresh is due, otherwise no change and no error |
| `Settings.RefreshSucceeds` | wikipolicyd/settings_server.py:52-86 | a refresh succeeds if and only if the page was fetched and all three searches matched, and then every cached field holds the page's value and the update time is the fetch time |
| `Settings.RefreshFailsInOrder` | wikipolicyd/settings_server.py:61-86 | a failed request changes nothing; a missing balance changes only the update time; a missing plan updates the balance but neither plan nor remaining data; a missing remaining amount leaves only that field as it was; each with its own error |
| `Settings.RefreshedValuesNonNegative` | wikipolicyd/settings_server.py:66-83 | after a successful refresh the cached balance and remaining amount are non-negative |
| `Settings.PollWithinWindow` | wikipolicyd/settings_server.py:88-101 | within the refresh window a getter makes no refresh, reports no error and leaves the cached fields as they were |
| `Settings.RefreshHeldForWindow` | wikipolicyd/settings_server.py:49-61 | after a page fetch at time `t`, even one whose parsing then failed, any getter called between `t` and `t` + 1 s leaves the fields as that refresh set them and reports no error |
| `Settings.RealWikilinkSettingsServer.WithCredentials` | wikipolicyd/settings_server.py:43-46 | stores the login and password |
| `Settings.RealWikilinkSettingsServer.Connect` | wikipolicyd/settings_server.py:43-47 | building the server makes one refresh; it fails with that refresh's error, or returns a new object holding the credentials and the refreshed fields |
| `Settings.RealWikilinkSettingsServer.ShouldRefreshData` | wikipolicyd/settings_server.py:49-50 | `_should_refresh_data` on the object: `ShouldRefresh` at `now` against the object's last update time |
| `Settings.RealWikilinkSettingsServer.RefreshData` | wikipolicyd/settings_server.py:52-86 | the new fields and the outcome are those of `Refresh` on the old fields, and exactly one page fetch is made |
| `Settings.RealWikilinkSettingsServer.RefreshIfDue` | wikipolicyd/settings_server.py:49-50 | the new fields and the outcome are those of `Poll`, and a page fetch is made exactly when a refresh is due |
| `Settings.RealWikilinkSettingsServer.GetBalance` | wikipolicyd/settings_server.py:88-91 | refreshes exactly when due, then returns the cached balance, or fails with the refresh's error |
| `Settings.RealWikilinkSettingsServer.GetPlanName` | wikipolicyd/settings_server.py:93-96 | refreshes exactly when due, then returns the cached plan name, or fails with the refresh's error |
| `Settings.RealWikilinkSettingsServer.GetRemainingMb` | wikipolicyd/settings_server.py:98-101 | refreshes exactly when due, then returns the cached remaining amount, or fails with the refresh's error |

## Left out

- The HTTP login request and the regular-expression engine: each fetch is given as the three captures, or as a failed request. The shapes the captures can take (`\d+,\d+` and `\d+(\.\d)?`) are a precondition (`WellFormedFetch`).
- `time.time()`: the two clock readings of a getter (the window check and the stamp after the fetch) are parameters, on an integer millisecond clock.
- Settings.RemainingMbCeil: `float(...)` rounds to the nearest double, while the model computes the exact ceiling of the captured decimal. From 2^50 MB on, `N.d` can read as `N`, and from 2^53 + 1 on an integer `N` can read as `N - 1` or `N + 1`; that rounding is not modelled.
- Unicode digits: Python's `\d` and `int()` accept every Unicode decimal digit. The model accepts only `0`-`9`.
- The `str(...)` of the configured `data_limit` value: the model takes the resulting string.
- The `exception` date is taken as an already valid date. `strptime` parsing and its errors are not modelled.
- TOML loading of the configuration and credentials files (`config.py`): file I/O. The credentials are parameters of `Connect`.
- pickledb's file loading, `auto_dump` persistence and the database directory: storage I/O. The store is its contents. A refused `set` is taken to leave the contents unchanged.
- `activate_turbo`: an empty method with no behaviour.
- The abstract `SettingsServer` base class and its metaclass: there is one implementation, modelled directly.
- `client.py` (only stores two fields) and `__main__.py` (entry-point wiring that calls an undefined `run()`).
- A purchase decision and a polling scheduler: the code has neither.
- `setup.py`: packaging.
