# STOIC workout-of-the-day: a verified Dafny model

This project models the core logic of the STOIC mobile app. The app shows a
"workout of the day" from a fixed catalog and tracks the exercises of the
current session. It keeps a persisted log of completed workouts and lets the
user mint a one-unit "proof of workout" token on Solana for a completed
workout.

The model has six modules:

- `Wrappers`: `Option` and `Result`.
- `Workouts`: the catalog constant, `getTodaysWorkout` (the day of the year
  modulo the catalog size) and `getWorkoutById`.
- `WorkoutContext`: the `WorkoutProvider` state machine as a class. Its
  fields are the current workout, the set of completed exercise ids, the
  completed-workout log, and the persisted storage slot. It has the actions
  start, toggle, complete, reset, load and mark-minted, plus the derived
  "is the workout complete" predicate.
- `MintWorkoutNft`: the `mutationFn` of the mint hook as a method over an
  `Environment` of wallet and RPC replies. It returns the outcome and the
  trace of external calls it made. The module also holds the four mint
  instructions, the signing of the compiled transaction by the fresh mint
  key, and `generateWorkoutNftMetadata`.
- `WalletErrors`: `isWalletCancellationError`.
- `ClusterProvider`: `getClusterUrlParam`, `getDefaultCluster`, the exposed
  cluster list sorted by name, and `getExplorerUrl`.

Notes on the behaviour the model captures:

- `markNftMinted` marks every unminted record with the given workout id, not
  only the first one (`MarkMintedMarksEveryMatch`).
- `toggleExercise` accepts any id, including one that is not an exercise of
  the current workout. So the completed-id set is not always a subset of the
  current workout's exercise ids. Such stray ids never affect completion
  (`SessionCompleteIgnoresOtherIds`).
- `loadCompletedWorkouts` keeps the in-memory log when the storage slot is
  empty or the read fails. It does not reset the log to empty.
- `completeWorkout` does not end the session. The current workout and its
  completed ids stay until `resetWorkout` or `startWorkout`.
- The mint pipeline does not look at the value `confirmTransaction` resolves
  with. A transaction confirmed with an on-chain error still reports success
  (`ConfirmedWithErrorStillSucceeds`).
- The pipeline raises only three kinds of error: "not connected",
  "insufficient balance", and the rejection of a call it awaited. A wallet
  rejection is one of those rejections. Callers classify it with
  `isWalletCancellationError`.

## Model

| member | source | states |
|---|---|---|
| Workouts.CatalogEntryWellFormed | app/data/workouts.ts:23-104 | each catalog workout has at least one exercise, and its exercise ids are distinct |
| Workouts.CatalogWellFormed | app/data/workouts.ts:23-104 | the catalog has five workouts with distinct ids; each has at least one exercise and distinct exercise ids |
| Workouts.TodaysWorkout | app/data/workouts.ts:107-112 | the workout of the day is always a catalog workout; for a day below the catalog size it is the workout at that index |
| Workouts.TodaysWorkoutPeriodic | app/data/workouts.ts:107-112 | days five apart (one catalog length) get the same workout |
| Workouts.FindById | app/data/workouts.ts:115-117 | lookup yields None exactly when no workout has the id; otherwise it yields the first workout with that id |
| Workouts.WorkoutById | app/data/workouts.ts:115-117 | `getWorkoutById` yields None exactly when no catalog workout has the id; otherwise a catalog workout with that id |
| Workouts.FindByIdOfMember | app/data/workouts.ts:115-117 | in a list with distinct ids, lookup by a member's own id returns that member |
| Workouts.WorkoutByIdOfCatalogMember | app/data/workouts.ts:115-117 | looking a catalog workout up by its own id returns that workout |
| Workouts.TodaysWorkoutFoundById | app/data/workouts.ts:107-117 | the workout of the day is found again by its id |
| WorkoutContext.EveryExerciseDone | app/components/wod/workout-context.tsx:44 | true exactly when every exercise id of the list is in the completed set |
| WorkoutContext.SessionComplete | app/components/wod/workout-context.tsx:41-44 | complete iff a workout is selected, it has an exercise, and the id at every exercise index is done |
| WorkoutContext.SessionCompleteIff | app/components/wod/workout-context.tsx:41-44 | a session is complete iff a workout is selected, it has an exercise, and all its exercise ids are completed |
| WorkoutContext.SessionCompleteIgnoresOtherIds | app/components/wod/workout-context.tsx:41-44 | adding ids that are not exercises of the workout never changes completeness |
| WorkoutContext.Wod004Completion | app/components/wod/workout-context.tsx:41-44 | for the fourth catalog workout, five of six exercises is not complete and all six is |
| WorkoutContext.Toggle | app/components/wod/workout-context.tsx:51-61 | the toggled id's membership flips; every other id keeps its membership |
| WorkoutContext.ToggleTwice | app/components/wod/workout-context.tsx:51-61 | toggling the same id twice restores the set |
| WorkoutContext.ToggleAllParity | app/components/wod/workout-context.tsx:51-61 | after a sequence of toggles, an id is completed iff it started completed xor it was toggled an odd number of times |
| WorkoutContext.NewRecord | app/components/wod/workout-context.tsx:66-72 | a new record carries the workout's id, name and exercise count, the given completion time, and is not minted |
| WorkoutContext.MarkRecord | app/components/wod/workout-context.tsx:105-109 | a record keeps its workout, name, time and count; a record of the id ends up minted, and an unminted one takes the address; any other record is unchanged |
| WorkoutContext.MarkMinted | app/components/wod/workout-context.tsx:105-109 | same length; each unminted record with the id becomes minted with the address; every other record is unchanged |
| WorkoutContext.MarkMintedIdempotent | app/components/wod/workout-context.tsx:105-109 | marking twice with the same id and address equals marking once |
| WorkoutContext.MarkMintedLeavesNoneUnminted | app/components/wod/workout-context.tsx:105-109 | after marking, no record with the id is unminted |
| WorkoutContext.MarkMintedExtends | app/components/wod/workout-context.tsx:105-109 | marking keeps every record's workout, time and count, and never un-mints a record |
| WorkoutContext.MarkMintedAppend | app/components/wod/workout-context.tsx:105-109 | marking a concatenated log is marking each part |
| WorkoutContext.MarkMintedMarksEveryMatch | app/components/wod/workout-context.tsx:105-109 | two unminted records of the same workout are both marked with the same address |
| WorkoutContext.WorkoutProvider.constructor | app/components/wod/workout-context.tsx:37-39 | the provider starts with no workout, no completed ids and an empty log |
| WorkoutContext.WorkoutProvider.IsWorkoutComplete | app/components/wod/workout-context.tsx:41-44 | true iff the provider has a current workout with an exercise, and every one of its exercise ids is in the completed set |
| WorkoutContext.WorkoutProvider.StartWorkout | app/components/wod/workout-context.tsx:46-49 | the workout becomes current, the completed set is cleared, the log and storage are unchanged, and the session is not complete |
| WorkoutContext.WorkoutProvider.ToggleExercise | app/components/wod/workout-context.tsx:51-61 | the completed set becomes its toggle by the id; nothing else changes |
| WorkoutContext.WorkoutProvider.CompleteWorkout | app/components/wod/workout-context.tsx:63-85 | an incomplete session returns None and changes nothing; a complete one appends exactly the new record, returns it, and writes the new log when the write succeeds; the old log is kept as a prefix |
| WorkoutContext.WorkoutProvider.ResetWorkout | app/components/wod/workout-context.tsx:87-90 | no current workout and no completed ids; the log and storage are unchanged |
| WorkoutContext.WorkoutProvider.LoadCompletedWorkouts | app/components/wod/workout-context.tsx:92-101 | a successful read of a filled slot replaces the log with it; otherwise the log is unchanged |
| WorkoutContext.WorkoutProvider.MarkNftMinted | app/components/wod/workout-context.tsx:103-119 | the log becomes its marked version and is written when the write succeeds; the session is unchanged |
| MintWorkoutNft.RequiredSigners | app/components/nft/use-mint-workout-nft.tsx:112-122 | a key is a required signer iff it is the fee payer or a signer of one of the instructions |
| MintWorkoutNft.VersionedTransaction.constructor | app/components/nft/use-mint-workout-nft.tsx:119 | a new transaction over the message has no signatures |
| MintWorkoutNft.VersionedTransaction.Sign | app/components/nft/use-mint-workout-nft.tsx:122 | signing adds the keys of the given key pairs, which must be required signers of the message |
| MintWorkoutNft.MintInstructions | app/components/nft/use-mint-workout-nft.tsx:79-109 | every instruction needs signatures only from the wallet and the mint key, and the first one needs the mint key |
| MintWorkoutNft.MintInstructionsWiring | app/components/nft/use-mint-workout-nft.tsx:79-109 | four instructions over one mint: the wallet funds an 82-byte token-program account, is both authorities of a zero-decimal mint, pays for and owns the associated account, and exactly one unit is minted into that account |
| MintWorkoutNft.MintMessageSigners | app/components/nft/use-mint-workout-nft.tsx:112-122 | the message's required signers are exactly the wallet and the fresh mint key |
| MintWorkoutNft.MintWorkoutNft | app/components/nft/use-mint-workout-nft.tsx:37-143 | no account fails before any call; the calls made are a prefix of the fixed seven-call sequence; the balance guard and each failing call, the confirmation included, stop the run right after it with its error; success iff every awaited reply succeeds, returning the fresh mint address and the signature |
| MintWorkoutNft.SuccessfulRunSends | app/components/nft/use-mint-workout-nft.tsx:73-131 | a successful run sends the wallet-paid message over the fetched blockhash, with its slot, co-signed by the mint key only, and confirms that signature at "confirmed" over the same blockhash |
| MintWorkoutNft.ConfirmedWithErrorStillSucceeds | app/components/nft/use-mint-workout-nft.tsx:127-131 | a confirmation that reports an on-chain error still gives a successful result |
| MintWorkoutNft.NatToString | app/components/nft/use-mint-workout-nft.tsx:176-177 | a count prints as a non-empty string of decimal digits with no leading zero; it starts with '0' only for zero |
| MintWorkoutNft.NatToStringRoundTrip | app/components/nft/use-mint-workout-nft.tsx:176-177 | the printed digits read back as the count |
| MintWorkoutNft.WorkoutNftMetadata | app/components/nft/use-mint-workout-nft.tsx:167-185 | fails iff the completion date is invalid; otherwise the name, symbol, description, image, category and creators are as promised, and there are 5 + tags attributes: workout, difficulty, an exercise count and a duration in minutes that parse back, the ISO date, then one Tag per tag in order |
| WalletErrors.Lower | app/utils/wallet-errors.ts:11 | same length, each character lower-cased |
| WalletErrors.Contains | app/utils/wallet-errors.ts:14-26 | true exactly when the phrase occurs at some position of the string |
| WalletErrors.ContainsTransitive | app/utils/wallet-errors.ts:18-26 | a phrase inside a phrase that occurs also occurs |
| WalletErrors.ContainsLower | app/utils/wallet-errors.ts:11-26 | an occurrence in any case survives lower-casing |
| WalletErrors.IsWalletCancellationError | app/utils/wallet-errors.ts:9-30 | a non-Error is never a cancellation; an Error is one iff its name is the adapter's error name or its lower-cased message contains one of the five non-redundant phrases |
| WalletErrors.GenericPhraseInAnyCase | app/utils/wallet-errors.ts:24-26 | a message containing "rejected", "cancelled" or "canceled" in any case is a cancellation whatever the name |
| WalletErrors.CancellationExceptionIsCancellation | app/utils/wallet-errors.ts:16 | the Java "CancellationException" text is a cancellation although no generic phrase matches it |
| WalletErrors.DenialNeedsUserDenied | app/utils/wallet-errors.ts:20 | "Denied" alone is not a cancellation; "User Denied" is |
| WalletErrors.NameMatchIsCaseSensitive | app/utils/wallet-errors.ts:22 | the adapter name matches only in its exact case |
| ClusterProvider.ClusterUrlParam | app/components/cluster/cluster-provider.tsx:55-73 | empty iff the network is mainnet; devnet and testnet give their fixed suffix; custom carries the encoded endpoint |
| ClusterProvider.ClusterUrlParamIdentifiesNetwork | app/components/cluster/cluster-provider.tsx:55-73 | the suffix determines the cluster's network |
| ClusterProvider.ExplorerUrl | app/components/cluster/cluster-provider.tsx:44 | the URL is the explorer base, then the path, then the cluster suffix; on mainnet it is exactly base plus path; the network reads back from the suffix |
| ClusterProvider.FindByNetwork | app/components/cluster/cluster-provider.tsx:21 | None iff no cluster is on the network; otherwise the first cluster on it |
| ClusterProvider.DefaultCluster | app/components/cluster/cluster-provider.tsx:17-28 | the first cluster on the default network if there is one, else the first configured cluster; None only for an empty list |
| ClusterProvider.StrLessTotal | app/components/cluster/cluster-provider.tsx:42 | of two different names, one is smaller |
| ClusterProvider.StrLessAsymmetric | app/components/cluster/cluster-provider.tsx:42 | no name is both smaller and greater than another |
| ClusterProvider.NotLessTransitive | app/components/cluster/cluster-provider.tsx:42 | "not smaller" is transitive, so the comparator is a consistent order |
| ClusterProvider.InsertByName | app/components/cluster/cluster-provider.tsx:42 | inserting into a name-sorted list keeps it sorted and adds exactly that cluster |
| ClusterProvider.SortByName | app/components/cluster/cluster-provider.tsx:42 | the exposed list is sorted by name and is a permutation of the configured list |
| ClusterProvider.SortedByNameUnique | app/components/cluster/cluster-provider.tsx:42 | with distinct names only one sorted permutation exists, so any sorting algorithm gives the same list |

## Left out

- Persistent storage: AsyncStorage is one slot holding a log; each write and
  read takes a flag saying whether it succeeds. JSON encoding and decoding
  are the identity, and a corrupt stored value is not modelled.
- React: hooks, re-rendering and memoised callbacks are not modelled. Each
  action sees the state left by the previous action. A stale closure that
  reads an older render's state is not modelled.
- Console logging, the `onError` handler of the mint mutation and the
  `useWorkout` guard against use outside the provider are not modelled.
  They produce only log output or a programming-error throw.
- Clocks: the day of the year, the completion time and the locale and ISO
  forms of the date are parameters.
- Wallet, RPC and cryptography: every reply comes from the `Environment`
  value. This covers the balance, key generation, the rent-exempt minimum,
  associated-token-address derivation, the blockhash, sign-and-send and
  confirmation. Message compilation (account ordering, binary encoding) and
  signature bytes are not modelled. A signature is a set of signing keys.
- MintWorkoutNft.MintWorkoutNft: the balance guard compares whole lamports
  with 3,000,000 instead of the floating-point SOL comparison. The
  insufficient-balance error carries the lamports, not the formatted
  message text.
- The secret key of the mint key pair is not modelled.
- The associated-token-address derivation's failure for an off-curve owner
  is not modelled. Its reply is a total function.
- `encodeURIComponent` is a parameter of the cluster functions.
- `toLowerCase` is modelled for ASCII letters only.
- String order in the cluster sort is by code point. JavaScript compares
  UTF-16 code units. The two agree on names without surrogate pairs.
- The sort itself is an insertion sort. The engine's algorithm is not
  modelled. `SortedByNameUnique` shows that the result is the same for
  distinct names.
- The definitions of the cluster network enum and the cluster record are
  not among the modelled sources. `ClusterNetwork` and `Cluster` are
  reconstructed from their use, with the enum's string values taken as
  "mainnet-beta", "testnet", "devnet" and "custom".
- ClusterProvider.DefaultCluster: for an empty cluster list the source
  throws a `TypeError` while logging the missing first cluster's name; the
  model returns `None` for that case instead of modelling the exception.
- The selected-cluster state and its setter are not modelled.
- Screens and UI components are not part of this model.
