/** The workout NFT mint: the guarded, fixed sequence of wallet and RPC calls
    that creates a zero-decimal token mint, its associated token account for
    the wallet, and mints one unit into it; and the off-chain metadata
    builder. Every wallet, RPC and key-generation call is an entry appended
    to a trace, and its reply is taken from an `Environment` value. */
module MintWorkoutNft {
  import opened Wrappers
  import opened Workouts

  // ---------------------------------------------------------------------------
  // Chain values

  /** A public key, identified by its base-58 text. */
  datatype PublicKey = PublicKey(base58: string)

  /** A generated key pair; the secret half is not modelled. */
  datatype Keypair = Keypair(publicKey: PublicKey)

  datatype Blockhash = Blockhash(blockhash: string, lastValidBlockHeight: nat)

  /** The reply of `getLatestBlockhashAndContext`: the context slot and the blockhash. */
  datatype BlockhashWithContext = BlockhashWithContext(slot: nat, value: Blockhash)

  datatype Commitment = Processed | Confirmed | Finalized

  const TokenProgramId: PublicKey := PublicKey("TokenkegQfeZyiNwAJbNbGKPFXCWuBvf9Ss623VQ5DA")

  /** `MINT_SIZE`: the byte size of a token mint account. */
  const MintSize: nat := 82

  /** 0.003 SOL in lamports: the smallest balance that passes the guard. */
  const MinBalanceLamports: nat := 3_000_000

  datatype Instruction =
    | CreateAccount(fromPubkey: PublicKey, newAccountPubkey: PublicKey, space: nat,
                    lamports: nat, programId: PublicKey)
    | InitializeMint(mint: PublicKey, decimals: nat, mintAuthority: PublicKey,
                     freezeAuthority: Option<PublicKey>)
    | CreateAssociatedTokenAccount(payer: PublicKey, associatedToken: PublicKey,
                                   owner: PublicKey, mint: PublicKey)
    | MintTo(mint: PublicKey, destination: PublicKey, authority: PublicKey, amount: nat)

  /** The accounts an instruction needs signatures from. */
  function InstructionSigners(ix: Instruction): set<PublicKey>
  {
    match ix
    case CreateAccount(from, newAccount, _, _, _) => {from, newAccount}
    case InitializeMint(_, _, _, _) => {}
    case CreateAssociatedTokenAccount(payer, _, _, _) => {payer}
    case MintTo(_, _, authority, _) => {authority}
  }

  /** The compiled legacy message: fee payer, recent blockhash, instructions. */
  datatype Message = Message(payerKey: PublicKey, recentBlockhash: string, instructions: seq<Instruction>)

  /** The keys allowed to sign a message: the fee payer and every signer of
      one of its instructions. */
  function RequiredSigners(message: Message): (r: set<PublicKey>)
    ensures forall k :: k in r <==>
              (k == message.payerKey
               || exists i :: 0 <= i < |message.instructions| && k in InstructionSigners(message.instructions[i]))
  {
    {message.payerKey} + set i, k | 0 <= i < |message.instructions| && k in InstructionSigners(message.instructions[i]) :: k
  }

  /** A transaction over a compiled message, to which signatures are added in place. */
  class VersionedTransaction {
    const message: Message
    var signers: set<PublicKey>

    constructor (message: Message)
      ensures this.message == message && signers == {}
    {
      this.message := message;
      signers := {};
    }

    /** `transaction.sign(keypairs)`; the library throws for a key that is
        not a required signer of the message, which callers must avoid. */
    method Sign(keypairs: seq<Keypair>)
      requires forall k :: k in keypairs ==> k.publicKey in RequiredSigners(message)
      modifies this
      ensures signers == old(signers) + set k | k in keypairs :: k.publicKey
    {
      signers := signers + set k | k in keypairs :: k.publicKey;
    }
  }

  // ---------------------------------------------------------------------------
  // The four instructions

  /** The instruction list: create the mint account funded by the wallet and
      owned by the token program, initialise it with zero decimals, create
      the wallet's associated token account for it, and mint one unit there. */
  function MintInstructions(wallet: PublicKey, mint: PublicKey, associatedToken: PublicKey, lamports: nat)
    : (r: seq<Instruction>)
    ensures forall i :: 0 <= i < |r| ==> InstructionSigners(r[i]) <= {wallet, mint}
    ensures |r| > 0 && mint in InstructionSigners(r[0])
  {
    [ CreateAccount(wallet, mint, MintSize, lamports, TokenProgramId),
      InitializeMint(mint, 0, wallet, Some(wallet)),
      CreateAssociatedTokenAccount(wallet, associatedToken, wallet, mint),
      MintTo(mint, associatedToken, wallet, 1) ]
  }

  /** The wiring of the four instructions: one mint throughout; the account
      created third is the one minted into; the wallet funds, pays, owns and
      holds both authorities; exactly one indivisible unit is minted. */
  lemma MintInstructionsWiring(wallet: PublicKey, mint: PublicKey, associatedToken: PublicKey, lamports: nat)
    ensures var ixs := MintInstructions(wallet, mint, associatedToken, lamports);
      && |ixs| == 4
      && ixs[0].CreateAccount? && ixs[1].InitializeMint? && ixs[2].CreateAssociatedTokenAccount? && ixs[3].MintTo?
      && ixs[0].newAccountPubkey == ixs[1].mint == ixs[2].mint == ixs[3].mint == mint
      && ixs[2].associatedToken == ixs[3].destination == associatedToken
      && ixs[0].fromPubkey == ixs[2].payer == ixs[2].owner == wallet
      && ixs[1].mintAuthority == ixs[3].authority == wallet && ixs[1].freezeAuthority == Some(wallet)
      && ixs[0].space == MintSize && ixs[0].lamports == lamports && ixs[0].programId == TokenProgramId
      && ixs[1].decimals == 0 && ixs[3].amount == 1
  {
  }

  /** The fresh mint key may co-sign: it is a signer of the create-account
      instruction. The signers are exactly the wallet and the mint. */
  lemma MintMessageSigners(wallet: PublicKey, mint: PublicKey, associatedToken: PublicKey, lamports: nat, blockhash: string)
    ensures RequiredSigners(Message(wallet, blockhash, MintInstructions(wallet, mint, associatedToken, lamports)))
            == {wallet, mint}
  {
    var m := Message(wallet, blockhash, MintInstructions(wallet, mint, associatedToken, lamports));
    var ixs := m.instructions;
    assert InstructionSigners(ixs[0]) == {wallet, mint};
    assert mint in RequiredSigners(m);
    forall k | k in RequiredSigners(m) ensures k == wallet || k == mint {
      if k != wallet {
        var i :| 0 <= i < |ixs| && k in InstructionSigners(ixs[i]);
      }
    }
  }

  // ---------------------------------------------------------------------------
  // The pipeline

  /** One external call, in the order the pipeline makes them. */
  datatype Call =
    | GetBalance(account: PublicKey)
    | GenerateKeypair(generated: PublicKey)
    | GetMinimumBalanceForRentExemptMint
    | GetAssociatedTokenAddress(mint: PublicKey, owner: PublicKey)
    | GetLatestBlockhashAndContext
    | SignAndSendTransaction(message: Message, signedBy: set<PublicKey>, minContextSlot: nat)
    | ConfirmTransaction(signature: string, blockhash: Blockhash, commitment: Commitment)

  /** The replies of the wallet, the RPC connection and the key generator;
      `Failure` is a rejected promise with its message. The confirmation
      reply is the transaction's on-chain error, if any. */
  datatype Environment = Environment(
    account: Option<PublicKey>,
    balance: Result<nat, string>,
    newKeypair: Keypair,
    rentExemptMint: Result<nat, string>,
    associatedTokenAddress: (PublicKey, PublicKey) -> PublicKey,
    latestBlockhash: Result<BlockhashWithContext, string>,
    sendResult: Result<string, string>,
    confirmResult: Result<Option<string>, string>)

  datatype MintError =
    | NotConnected
    | InsufficientBalance(lamports: nat)
    | CallFailed(message: string)

  datatype MintResult = MintResult(mintAddress: string, signature: string)

  /** The message a successful run sends for wallet `wallet`. */
  function MintMessage(env: Environment, wallet: PublicKey): Message
  {
    var mint := env.newKeypair.publicKey;
    var ctx := env.latestBlockhash.GetOr(BlockhashWithContext(0, Blockhash("", 0)));
    Message(wallet, ctx.value.blockhash,
            MintInstructions(wallet, mint, env.associatedTokenAddress(mint, wallet),
                             env.rentExemptMint.GetOr(0)))
  }

  /** The full sequence of calls of a run for wallet `wallet`. A run that
      stops early has made a prefix of it; the entries past that prefix use
      placeholder replies and are never made. */
  function CanonicalCalls(env: Environment, wallet: PublicKey): seq<Call>
  {
    var mint := env.newKeypair.publicKey;
    var ctx := env.latestBlockhash.GetOr(BlockhashWithContext(0, Blockhash("", 0)));
    [ GetBalance(wallet),
      GenerateKeypair(mint),
      GetMinimumBalanceForRentExemptMint,
      GetAssociatedTokenAddress(mint, wallet),
      GetLatestBlockhashAndContext,
      SignAndSendTransaction(MintMessage(env, wallet), {mint}, ctx.slot),
      ConfirmTransaction(env.sendResult.GetOr(""), ctx.value, Confirmed) ]
  }

  /** Every reply the pipeline waits for is a success and the balance passes
      the guard. The confirmation's on-chain error value is not examined. */
  predicate AllRepliesSucceed(env: Environment)
  {
    && env.account.Some?
    && env.balance.Success? && env.balance.value >= MinBalanceLamports
    && env.rentExemptMint.Success?
    && env.latestBlockhash.Success?
    && env.sendResult.Success?
    && env.confirmResult.Success?
  }

  /** The `mutationFn` of `useMintWorkoutNft`. Returns the outcome and the
      calls made, in order. */
  method MintWorkoutNft(env: Environment) returns (r: Result<MintResult, MintError>, calls: seq<Call>)
    // No connected account: fail before any call.
    ensures env.account.None? ==> r == Failure(NotConnected) && calls == []
    // Otherwise the calls made are a prefix of the fixed sequence.
    ensures env.account.Some? ==>
              0 < |calls| <= 7 && calls == CanonicalCalls(env, env.account.value)[..|calls|]
    // The balance guard: a failed query or a balance under 0.003 SOL stops
    // the run after the balance query, before key generation.
    ensures env.account.Some? && env.balance.Failure? ==>
              r == Failure(CallFailed(env.balance.error)) && |calls| == 1
    ensures env.account.Some? && env.balance.Success? && env.balance.value < MinBalanceLamports ==>
              r == Failure(InsufficientBalance(env.balance.value)) && |calls| == 1
    // A later failed call ends the run right after it, with its error.
    ensures env.account.Some? && env.balance.Success? && env.balance.value >= MinBalanceLamports ==>
              && (env.rentExemptMint.Failure? ==>
                    r == Failure(CallFailed(env.rentExemptMint.error)) && |calls| == 3)
              && (env.rentExemptMint.Success? && env.latestBlockhash.Failure? ==>
                    r == Failure(CallFailed(env.latestBlockhash.error)) && |calls| == 5)
              && (env.rentExemptMint.Success? && env.latestBlockhash.Success? && env.sendResult.Failure? ==>
                    r == Failure(CallFailed(env.sendResult.error)) && |calls| == 6)
              && (env.rentExemptMint.Success? && env.latestBlockhash.Success? && env.sendResult.Success?
                  && env.confirmResult.Failure? ==>
                    r == Failure(CallFailed(env.confirmResult.error)) && |calls| == 7)
    // Success exactly when every reply succeeds; it reports the fresh mint
    // key and the wallet's signature, after the confirmation call.
    ensures r.Success? <==> AllRepliesSucceed(env)
    ensures AllRepliesSucceed(env) ==> |calls| == 7
    ensures r.Success? ==>
              r.value == MintResult(env.newKeypair.publicKey.base58, env.sendResult.value)
    ensures r.Failure? && env.confirmResult.Failure? && |calls| == 7 ==>
              r == Failure(CallFailed(env.confirmResult.error))
  {
    calls := [];
    if env.account.None? {
      return Failure(NotConnected), calls;
    }
    var walletPubkey := env.account.value;
    ghost var canonical := CanonicalCalls(env, walletPubkey);

    calls := calls + [GetBalance(walletPubkey)];
    if env.balance.Failure? {
      return Failure(CallFailed(env.balance.error)), calls;
    }
    var balance := env.balance.value;
    if balance < MinBalanceLamports {
      return Failure(InsufficientBalance(balance)), calls;
    }

    var mintKeypair := env.newKeypair;
    var mintPubkey := mintKeypair.publicKey;
    calls := calls + [GenerateKeypair(mintPubkey)];

    calls := calls + [GetMinimumBalanceForRentExemptMint];
    if env.rentExemptMint.Failure? {
      return Failure(CallFailed(env.rentExemptMint.error)), calls;
    }
    var lamportsForMint := env.rentExemptMint.value;

    calls := calls + [GetAssociatedTokenAddress(mintPubkey, walletPubkey)];
    var associatedTokenAccount := env.associatedTokenAddress(mintPubkey, walletPubkey);

    calls := calls + [GetLatestBlockhashAndContext];
    if env.latestBlockhash.Failure? {
      return Failure(CallFailed(env.latestBlockhash.error)), calls;
    }
    var minContextSlot := env.latestBlockhash.value.slot;
    var latestBlockhash := env.latestBlockhash.value.value;

    var instructions := MintInstructions(walletPubkey, mintPubkey, associatedTokenAccount, lamportsForMint);
    var message := Message(walletPubkey, latestBlockhash.blockhash, instructions);
    var transaction := new VersionedTransaction(message);
    MintMessageSigners(walletPubkey, mintPubkey, associatedTokenAccount, lamportsForMint, latestBlockhash.blockhash);
    transaction.Sign([mintKeypair]);
    assert transaction.signers == {mintPubkey};

    calls := calls + [SignAndSendTransaction(transaction.message, transaction.signers, minContextSlot)];
    if env.sendResult.Failure? {
      return Failure(CallFailed(env.sendResult.error)), calls;
    }
    var signature := env.sendResult.value;

    calls := calls + [ConfirmTransaction(signature, latestBlockhash, Confirmed)];
    if env.confirmResult.Failure? {
      return Failure(CallFailed(env.confirmResult.error)), calls;
    }

    r := Success(MintResult(mintPubkey.base58, signature));
  }

  /** What a successful run sent: the transaction paid by the wallet, over
      the blockhash and with the slot of the one blockhash fetch, co-signed by
      the fresh mint key alone, holding the four mint instructions over the
      rent-exempt minimum and the derived associated token address; then the
      confirmation of the returned signature at `confirmed` over that same
      blockhash. */
  lemma SuccessfulRunSends(env: Environment)
    requires AllRepliesSucceed(env)
    ensures var wallet := env.account.value;
      var mint := env.newKeypair.publicKey;
      var calls := CanonicalCalls(env, wallet);
      var ata := env.associatedTokenAddress(mint, wallet);
      && calls[5] == SignAndSendTransaction(
           Message(wallet, env.latestBlockhash.value.value.blockhash,
                   MintInstructions(wallet, mint, ata, env.rentExemptMint.value)),
           {mint}, env.latestBlockhash.value.slot)
      && calls[6] == ConfirmTransaction(env.sendResult.value, env.latestBlockhash.value.value, Confirmed)
      && calls[3] == GetAssociatedTokenAddress(mint, wallet)
  {
  }

  /** The confirmation's reply value is ignored: a transaction confirmed with
      an on-chain error still reports success. */
  method ConfirmedWithErrorStillSucceeds(env: Environment) returns (r: Result<MintResult, MintError>)
    requires AllRepliesSucceed(env) && env.confirmResult.value.Some?
    ensures r.Success?
  {
    var calls;
    r, calls := MintWorkoutNft(env);
  }

  // ---------------------------------------------------------------------------
  // generateWorkoutNftMetadata

  const CollectionName: string := "STOIC Workouts"
  const CollectionSymbol: string := "STOIC"

  datatype Attribute = Attribute(traitType: string, value: string)

  datatype NftMetadata = NftMetadata(
    name: string,
    symbol: string,
    description: string,
    image: string,
    attributes: seq<Attribute>,
    category: string,
    creators: seq<string>)

  function DigitChar(d: nat): char
    requires d < 10
  {
    "0123456789"[d]
  }

  /** A non-empty string of decimal digits with no leading zero: the form
      `toString` prints for a whole number. */
  predicate IsDecimal(s: string)
  {
    |s| > 0 && (s[0] == '0' ==> |s| == 1) && forall i :: 0 <= i < |s| ==> '0' <= s[i] <= '9'
  }

  /** `n.toString()` for a whole number: its decimal digits. */
  function NatToString(n: nat): (s: string)
    ensures IsDecimal(s)
    ensures s[0] == '0' <==> n == 0
  {
    if n < 10 then [DigitChar(n)] else NatToString(n / 10) + [DigitChar(n % 10)]
  }

  /** Reads decimal digits back as a number. */
  function ParseDecimal(s: string): nat
    requires IsDecimal(s)
  {
    var last := s[|s| - 1] as int - '0' as int;
    if |s| == 1 then last else ParseDecimal(s[..|s| - 1]) * 10 + last
  }

  /** The decimal text of a count reads back as that count. */
  lemma {:induction false} NatToStringRoundTrip(n: nat)
    ensures ParseDecimal(NatToString(n)) == n
  {
    if n >= 10 {
      NatToStringRoundTrip(n / 10);
      var s := NatToString(n);
      assert s[..|s| - 1] == NatToString(n / 10);
    }
  }

  /** `generateWorkoutNftMetadata`. `localeDate` is the completion date as
      `toLocaleDateString` prints it; `isoDate` is `toISOString` of it, `None`
      for an invalid date, for which `toISOString` throws. */
  function WorkoutNftMetadata(workout: Workout, localeDate: string, isoDate: Option<string>)
    : (r: Result<NftMetadata, string>)
    ensures r.Failure? <==> isoDate.None?
    ensures r.Success? ==>
      var m := r.value;
      && m.name == CollectionName + " - " + workout.name
      && m.symbol == CollectionSymbol
      && m.description == "Completed \"" + workout.name + "\" workout on " + localeDate + ". " + workout.description
      && m.image == "" && m.category == "fitness" && m.creators == []
      && |m.attributes| == 5 + |workout.tags|
      && m.attributes[0] == Attribute("Workout", workout.name)
      && m.attributes[1] == Attribute("Difficulty", workout.difficulty.Name())
      && m.attributes[2].traitType == "Exercises"
      && IsDecimal(m.attributes[2].value) && ParseDecimal(m.attributes[2].value) == |workout.exercises|
      && m.attributes[3].traitType == "Duration"
      && (var v := m.attributes[3].value;
          |v| > 4 && v[|v| - 4..] == " min"
          && IsDecimal(v[..|v| - 4]) && ParseDecimal(v[..|v| - 4]) == workout.estimatedMinutes)
      && m.attributes[4] == Attribute("Completed", isoDate.value)
      && forall i :: 0 <= i < |workout.tags| ==> m.attributes[5 + i] == Attribute("Tag", workout.tags[i])
  {
    if isoDate.None? then Failure("Invalid time value")
    else
      var fixed := [
        Attribute("Workout", workout.name),
        Attribute("Difficulty", workout.difficulty.Name()),
        Attribute("Exercises", NatToString(|workout.exercises|)),
        Attribute("Duration", NatToString(workout.estimatedMinutes) + " min"),
        Attribute("Completed", isoDate.value)
      ];
      var tags := seq(|workout.tags|, i requires 0 <= i < |workout.tags| => Attribute("Tag", workout.tags[i]));
      NatToStringRoundTrip(|workout.exercises|);
      NatToStringRoundTrip(workout.estimatedMinutes);
      assert (NatToString(workout.estimatedMinutes) + " min")[..|NatToString(workout.estimatedMinutes)|]
             == NatToString(workout.estimatedMinutes);
      Success(NftMetadata(
        CollectionName + " - " + workout.name,
        CollectionSymbol,
        "Completed \"" + workout.name + "\" workout on " + localeDate + ". " + workout.description,
        "",
        fixed + tags,
        "fitness",
        []))
  }
}
