# Layered record-store demo, modelled in Dafny

The program is a small demonstration of a layered design. It has a data layer
(`DBModule`), a simulated network layer (`NetworkModule`) and a use-case layer
(`UseCaseModule`) that combines the two. A presentation layer on top prints
what the use cases return.

This project models the three lower layers:

- `Database.DbModule` is the record store. It is a class whose field `data`
  holds the ordered list of records. A new store holds
  `["record1", "record2", "record3"]`. The store can return all records,
  append one, update by index and delete by index. Update and delete check
  `0 <= index < length`. An index outside that range raises `IndexError` and
  leaves the store as it was, and a negative index is never counted from the
  end. Two pure functions, `Database.Update` and `Database.Delete`, state what
  these operations do to the contents. Lemmas beside them prove round trips,
  such as a delete undone by re-inserting and an append undone by deleting
  the last record, and that each operation is the expected permutation.
- `Network` is the stub remote API: three functions with fixed answers
  (fetch: 200 and `["api_record1", "api_record2"]`; post: 201 "Created";
  remote update: 200 "Updated").
- `UseCases.UseCaseModule` holds the store it was given.
  - `ProcessData` returns the local records followed by the remote ones, plus
    the summary `Combined data count: N`. `Decimal` models how a Python
    f-string renders `N`, and lemmas prove that rendering is a bijection
    with the canonical digit strings.
  - `SyncData` posts the combined records and returns the post's response.
  - `UpdateRecordBoth` updates the local record first. It reaches the remote
    update, which reuses the index as the remote id, only when the local
    update succeeded.
- `UseCases.RunMain` replays the demonstration script: add, paired update,
  sync, delete. It returns every value the script displays and proves each
  one equal to the concrete value.

An exception is modelled as `Records.Result`: `Err(OutOfRange)` stands for
`IndexError("Record index out of range")`. What a store method returns is a
snapshot of the list, never an alias of it.

## Model

| member | source | states |
|---|---|---|
| `Database.Update` | main.py:15-21 | Succeeds exactly when `0 <= index < len`. On success the length is kept, position `index` holds the new record and every other position is unchanged. Otherwise the error is the out-of-range `IndexError`. |
| `Database.Delete` | main.py:23-29 | Succeeds exactly when `0 <= index < len`. On success it returns `s[index]`. The rest is one shorter, keeps the records before `index` and shifts later ones left by one. Otherwise the error is the out-of-range `IndexError`. |
| `Database.DeleteThenReinsert` | main.py:26 | Re-inserting the removed record at its index gives back the original list, so removal keeps the order of the records. |
| `Database.DeletePermutes` | main.py:26 | The records left, plus the removed one, are exactly the original records as a multiset. |
| `Database.UpdatePermutes` | main.py:18 | An update exchanges one occurrence of the old record for the new one, and nothing else changes in the multiset of records. |
| `Database.UpdateThenRestore` | main.py:15-19 | Writing the previous record back at the same index undoes an update. |
| `Database.AppendThenDeleteLast` | main.py:10-27 | Deleting at index `len` right after an append returns the appended record and restores the earlier list. |
| `Database.DbModule.constructor` | main.py:3-4 | A new store holds `["record1", "record2", "record3"]`. |
| `Database.DbModule.GetData` | main.py:6-8 | Returns the current records in order and changes nothing. |
| `Database.DbModule.AddRecord` | main.py:10-13 | The new store is the old one with the record appended at the end. The method returns the new store. |
| `Database.DbModule.UpdateRecord` | main.py:15-21 | Returns what `Update` gives for the old contents. The store becomes the updated list on success and stays unchanged on error. |
| `Database.DbModule.DeleteRecord` | main.py:23-29 | Returns the removed record and leaves the store equal to `Delete`'s rest on success. On error it raises the same error and leaves the store unchanged. |
| `Network.FetchData` | main.py:33-36 | Always returns status 200 and the two fixed remote records. |
| `Network.PostData` | main.py:38-41 | Always returns 201 "Created", whatever the payload. |
| `Network.UpdateRemote` | main.py:43-46 | Always returns 200 "Updated", whatever the id and record. |
| `Decimal.Render` | main.py:60 | The text of the count is a non-empty digit string with no leading zero, and it begins with `0` exactly when the count is zero. |
| `Decimal.ValueOfRender` | main.py:60 | Reading the rendered digits back gives the count. |
| `Decimal.RenderValueOf` | main.py:60 | Every canonical digit string is the rendering of its value, the other half of the bijection. |
| `Decimal.RenderInjective` | main.py:60 | Different counts give different summary texts. |
| `UseCases.SummaryDeterminedByCount` | main.py:60 | A summary with the prefix `Combined data count: ` followed by the canonical digits of `n` is exactly that prefix plus the rendering of `n`. |
| `UseCases.UpdateBoth` | main.py:70-77 | Succeeds exactly when the local update does. An error is the local update's error, unchanged. On success `local` is the local update's result, with the new record at `index`, and `remote` is the remote update's 200 response for the same index. |
| `UseCases.UseCaseModule.constructor` | main.py:50-52 | The use case keeps the store it is given. |
| `UseCases.UseCaseModule.ProcessData` | main.py:54-61 | The combined list has length `len(local) + 2`. Its first `len(local)` elements are the store in order and the rest are the fetched records. The summary is the prefix followed by canonical digits whose value is the combined length. It reads the store and does not change it. |
| `UseCases.UseCaseModule.SyncData` | main.py:63-68 | Posts exactly `ProcessData`'s combined list and returns the post's response unchanged: 201 "Created". |
| `UseCases.UseCaseModule.UpdateRecordBoth` | main.py:70-77 | The result is `UpdateBoth` of the old contents. The store becomes `local` on success and is unchanged on error, and no remote response is produced then. |
| `UseCases.RunMain` | main.py:105-136 | The script's displayed values hold: 5, then 6 combined records with their summaries; the paired update's result; the sync response; `"record1"` as the removed record; and the final 5 combined records. |

## Left out

- Console output. The prints in `post_data` and `update_remote`, the
  presentation layer `ViewModelModule` (main.py:80-103) and the prints of
  `main` are not modelled. `RunMain` returns the displayed values instead of
  printing them.
- `UseCases.UseCaseModule.SyncData`: the payload of a post is only printed,
  so "posts exactly the combined data" is stated as the argument that
  `SyncData` passes to `Network.PostData`.
- `UseCases.UseCaseModule.UpdateRecordBoth`: the stub's remote update only
  prints and returns a constant, so "the remote update is never reached
  after a local error" is stated as an error result that carries no remote
  response.
- `Network` is a module of functions rather than an object injected into
  `UseCaseModule`, because the stub has no state. The `network_module`
  constructor argument is therefore not modelled.
- Python list aliasing. `get_data`, `add_record` and `update_record` return
  `self.data` itself. The model returns a value, the contents at that moment.
- The `.get("data", [])` default in `process_data` (main.py:58). The stub's
  response always has `data`, so the default is never used.
- Dynamic typing. The index is an integer, and records are strings.
- `main` calls `process_data` twice in each display step, once for the
  summary and once for the combined list. `ProcessData` is a function of
  the store, so each step makes one call: two calls with no mutation
  between them are equal.
- The traceback and exit status of an uncaught `IndexError`. The demo script
  never raises one.
