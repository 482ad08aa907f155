# Hodlcoin job and job manager for Miningcore

A Dafny model of the Hodlcoin-specific part of a Miningcore mining pool.
Hodlcoin extends the 80-byte Bitcoin block header to 88 bytes with two
32-bit "birthday" words. The rest of the pool (Bitcoin job construction,
share validation, template polling) belongs to Miningcore's Bitcoin base
classes, which are not part of this model. There are three pieces:

- **Header extension** (`CustomHeader`, `custom_header.dfy`). The
  `SerializeHeader` override works in place on the caller's buffer, here an
  `array<byte>`. It rejects a buffer shorter than 88 bytes with an
  `ArgumentException` and writes nothing. Otherwise it lets the base Bitcoin
  serializer write the buffer. Unless that call throws, it then clears
  `Slice(80, 8)`. The base serializer is a parameter of type `BaseSerializer`:
  any function of the buffer and the header fields that keeps the buffer's
  length and either completes or throws. `SerializedHeader` is the pure
  specification the method is proved against.
- **Birthday hydration** (`Jobs`, `hodlcoin_job.dfy`). `HodlcoinJob` has the
  fields `BirthdayA` and `BirthdayB`. `SetBirthdaysFromTemplate` overwrites a
  field only when the template's `Extra` map holds the exact key `birthdayA`
  or `birthdayB`, converting the value with `Convert.ToUInt32`. That
  conversion is a parameter of type `Converter`, which either returns a
  `uint32` or throws. The method is proved against the pure function
  `Hydrate`.
- **Job manager** (`JobManager`, `hodlcoin_job_manager.dfy`).
  `HodlcoinJobManager` holds `currentJobs` as a `map<string, HodlcoinJob>`.
  The base manager's `UpdateJob` is the one modelled call that returns a new
  table. Calls it makes to code outside the model (the base manager's
  `SetupJobParamsForStratum`, `UpdateJob` and `OnSubmitShareAsync`, and the
  job's `ProcessShare`) are appended with their arguments to the `calls`
  field. This makes it statable which calls were made, in what order, and
  with which values. The results of those calls are function parameters, and
  each of those calls may throw.

A thrown C# exception is modelled as an `Outcome.Fail` or `Result.Err` value
carrying an `Exception`.

Notes on the code as written:

- Birthday keys are the two exact spellings `birthdayA` and `birthdayB`.
  There are no alternative spellings, no case folding and no hex parsing.
- Bytes 80 to 87 of the header are always cleared to zero. The job's
  birthday values are not written into the header (the code marks this as
  unfinished).
- An unknown job id raises a `StratumException` with code `Other` and
  message `job not found`. A null job id throws the dictionary's own
  `ArgumentNullException` first.
- The two halves live in two different classes. The header serializer is
  the `Bitcoin.Custom.Hodlcoin` job's. The birthday fields, `HeaderSize`,
  and the job type the modelled manager works with belong to the `Hodlcoin`
  job. No single job class both carries birthdays and clears bytes 80..87.

`SetupJobParamsForStratum` hydrates without checking for a null template, so
the model's `SetBirthdaysFromTemplate` takes an optional template and throws
`NullReferenceException` for a missing one.

## Model

| member | source | states |
|---|---|---|
| `CustomHeader.Cleared` | src/Miningcore/Blockchain/Bitcoin/Custom/Hodlcoin/HodlcoinJob.cs:26 | Clearing a slice keeps the length, zeroes exactly the bytes in `[start, start+count)` and leaves every other byte as it was |
| `CustomHeader.SerializedHeader` | src/Miningcore/Blockchain/Bitcoin/Custom/Hodlcoin/HodlcoinJob.cs:16-27 | Keeps the length. Fails exactly when the buffer is shorter than 88 bytes or the base serializer throws. A short buffer gets the "Span too small" argument error and is left as it was. A throwing base leaves its own exception and its writes, with nothing cleared. On success, bytes 80..87 are zero, and bytes 0..79 and bytes from 88 on are as the base serializer wrote them |
| `CustomHeader.SerializedBirthdaysAreZero` | src/Miningcore/Blockchain/Bitcoin/Custom/Hodlcoin/HodlcoinJob.cs:24-26 | When the buffer has at least 88 bytes and the base completes, both little-endian birthday words (offsets 80 and 84) of the serialized header read as 0 |
| `CustomHeader.BaseSerializeHeader` | src/Miningcore/Blockchain/Bitcoin/Custom/Hodlcoin/HodlcoinJob.cs:22 | After the base call the buffer holds exactly what the base serializer produces from the old buffer and the given fields, and the call completes or throws as the base does |
| `CustomHeader.ClearSlice` | src/Miningcore/Blockchain/Bitcoin/Custom/Hodlcoin/HodlcoinJob.cs:26 | `Slice(start, count).Clear()` in place: the new buffer is `Cleared` of the old one |
| `CustomHeader.SerializeHeader` | src/Miningcore/Blockchain/Bitcoin/Custom/Hodlcoin/HodlcoinJob.cs:16-27 | The new buffer and the outcome are exactly `SerializedHeader` of the old contents, with `nTime`, `nonce`, `nBits` and `version` passed to the base unchanged. So a buffer under 88 bytes raises the argument error with neither the base call nor the clearing taking effect |
| `Jobs.Hydrate` | src/Miningcore/Blockchain/Hodlcoin/HodlcoinJob.cs:13-24 | A null template throws and changes nothing. A null `Extra` changes nothing. With a map, each word is set from its key when present and convertible and kept when absent. A failed `birthdayA` conversion aborts with both words unchanged. A failed `birthdayB` conversion keeps `BirthdayB` and throws that conversion's own exception. The call completes exactly when no present key fails to convert |
| `Jobs.HydrateIdempotent` | src/Miningcore/Blockchain/Hodlcoin/HodlcoinJob.cs:13-24 | Hydrating twice from the same template gives the same words and outcome as hydrating once |
| `Jobs.BirthdayAIgnoresKeyB` | src/Miningcore/Blockchain/Hodlcoin/HodlcoinJob.cs:18-22 | `BirthdayA` depends only on the map's `birthdayA` entry; the `birthdayB` key cannot affect it |
| `Jobs.BirthdayBIgnoresKeyA` | src/Miningcore/Blockchain/Hodlcoin/HodlcoinJob.cs:18-22 | When `birthdayA` does not throw, `BirthdayB` depends only on the map's `birthdayB` entry |
| `Jobs.HodlcoinJob.constructor` | src/Miningcore/Blockchain/Hodlcoin/HodlcoinJob.cs:10-11 | A new job's birthday words are both 0, the C# default for `uint` |
| `Jobs.HodlcoinJob.HeaderSize` | src/Miningcore/Blockchain/Hodlcoin/HodlcoinJob.cs:26-27 | The header size is 88: the 80-byte Bitcoin header plus two 4-byte birthday words. This equals the guard of the `Bitcoin.Custom.Hodlcoin` job's serializer, a different class |
| `Jobs.HodlcoinJob.SetBirthdaysFromTemplate` | src/Miningcore/Blockchain/Hodlcoin/HodlcoinJob.cs:13-24 | The new birthday words and the outcome are exactly `Hydrate` of the old words and the template |
| `JobManager.LookupJob` | src/Miningcore/Blockchain/Hodlcoin/HodlcoinJobManager.cs:69-70 | The lookup succeeds exactly when the id is non-null and in the table, and then yields the job stored under it. A null id throws `ArgumentNullException("key")`; an absent id throws `StratumException(Other, "job not found")` |
| `JobManager.HodlcoinJobManager.SubmitShareAsync` | src/Miningcore/Blockchain/Hodlcoin/HodlcoinJobManager.cs:64-78 | A null id is rejected with `ArgumentNullException` and an unknown id with "job not found"; in both cases no call is made. Otherwise `ProcessShare` is called on exactly the stored job with the submission's fields unchanged. Its exception is rethrown, or its share and block hex are forwarded to `OnSubmitShareAsync` and the share is returned. `currentJobs` is unchanged |
| `JobManager.HodlcoinJobManager.UpdateJob` | src/Miningcore/Blockchain/Hodlcoin/HodlcoinJobManager.cs:44-57 | `currentJobs` becomes the table the base leaves. If the base throws, its exception propagates and nothing is hydrated. Otherwise the base's job and `force` flag are returned unchanged. The job's birthdays are hydrated from its own template exactly when the job and its template are both non-null; otherwise the call completes and leaves the job's words untouched |
| `JobManager.HodlcoinJobManager.SetupJobParamsForStratum` | src/Miningcore/Blockchain/Hodlcoin/HodlcoinJobManager.cs:28-38 | The base setup runs first and sees the birthday words as they were. If it throws, its exception propagates and the words are unchanged. Otherwise the words become `Hydrate` of the old words and the job's template |

## Left out

- The base Bitcoin job's header serialization, merkle root, coinbase construction, hashing, share difficulty and block-candidate logic are not part of this model. They appear only as the uninterpreted `BaseSerializer` and `ShareProcessor` parameters.
- `Convert.ToUInt32` is not part of this model. It is the uninterpreted `Converter` parameter, and it sees only the extension value.
- The base manager's `UpdateJob`, `SetupJobParamsForStratum` and `OnSubmitShareAsync` are not part of this model. Their results are parameters and their calls are recorded in `calls`. Their effects on other state are not modelled, except that `UpdateJob` returns a new table of current jobs.
- JobManager.HodlcoinJobManager.SetupJobParamsForStratum: the base setup is assumed not to touch the birthday words or `currentJobs`. The words have private setters, so only the job itself can change them.
- JobManager.HodlcoinJobManager.SubmitShareAsync: `ProcessShare` and `OnSubmitShareAsync` are assumed to leave `currentJobs` alone. `ProcessShare` is modelled as depending only on the job's identity and the request, not on the job's mutable fields.
- JobManager.HodlcoinJobManager.UpdateJob: when the base throws, whatever it did to the returned job before throwing is not modelled; only the table it leaves is.
- `currentJobs` is filled and rotated by the base manager. The model takes the initial table as given when the manager is constructed, and takes later tables from the base `UpdateJob`.
- `async`/`await`, `CancellationToken`, and concurrent access to `currentJobs` and to a job's birthday fields (concurrency).
- The pool classes (`HodlcoinPool`, both namespaces): dependency-injection and reactive subscription wiring with no sequential logic.
- The `Bitcoin.Custom.Hodlcoin` job manager: its `UpdateJob` duplicates the one modelled here, and it calls `SetBirthdaysFromTemplate`, which that namespace's job does not define.
- `HodlcoinWorkerContext`, `NetworkInfo`, `PayeeBlockTemplateExtra` and `BitcoinExtraNonceProvider` are property bags or a forwarding constructor without behaviour. The worker context is kept only as an opaque value passed through.
