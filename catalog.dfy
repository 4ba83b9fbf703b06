/**
 * The operation catalog (`tokenOperations`): the 29 token operations the
 * demo offers, in source order, with lookup by id and selection by
 * category, and the facts the engine relies on, proved entry by entry.
 */
module OperationCatalog {
  import opened Wrappers
  import opened CommandTemplate
  import opened Types
  import opened Utils
  import opened JsArray
  import opened JsString

  // ---------------------------------------------------------------------
  // The entries. Each command string is held as a template; its text is
  // the string the source stores. What an entry shows the user (title,
  // description, example, and each parameter's description and placeholder)
  // is its listing, kept apart from what the engine works on.
  // ---------------------------------------------------------------------

  // `create-mint`, src/data/tokenOperations.ts:5-44

  function CreateMintCommand(): Template {
    Lit("arch-cli token create-mint --decimals ", Hole("decimals", Lit(" --mint-authority ", Hole("mint-authority", Lit(" --keypair-path ", Hole("keypair-path", End))))))
  }

  function CreateMintOp(): Operation {
    Operation(
      id := "create-mint",
      opType := CreateMint,
      command := CreateMintCommand(),
      category := Basic,
      parameters := [
        Parameter("decimals", NumberKind, true, Some(Num(6)), Some(Validation(Some(0), Some(9), None))),
        Parameter("mint-authority", StringKind, true, None, None),
        Parameter("freeze-authority", StringKind, false, None, None),
        Parameter("keypair-path", StringKind, true, None, None)
      ])
  }

  function CreateMintListing(): Listing {
    Listing(
      title := "Create Mint",
      description := "Create a new token mint with specified decimals and authorities",
      example := "arch-cli token create-mint --decimals 6 --mint-authority ./mint-authority.json --keypair-path ./payer.json",
      parameters := [
        ParamText("Number of decimal places (0-9)", None),
        ParamText("Path to keypair file for mint authority", Some("./mint-authority.json")),
        ParamText("Path to keypair file for freeze authority (optional)", Some("./freeze-authority.json")),
        ParamText("Path to keypair file for transaction signing", Some("./payer.json"))
      ])
  }

  // `show-mint`, src/data/tokenOperations.ts:45-62

  function ShowMintCommand(): Template {
    Lit("arch-cli token show-mint ", Hole("mint-address", End))
  }

  function ShowMintOp(): Operation {
    Operation(
      id := "show-mint",
      opType := ShowMint,
      command := ShowMintCommand(),
      category := Basic,
      parameters := [
        Parameter("mint-address", StringKind, true, None, None)
      ])
  }

  function ShowMintListing(): Listing {
    Listing(
      title := "Show Mint",
      description := "Display information about a token mint",
      example := "arch-cli token show-mint 11111111111111111111111111111111",
      parameters := [
        ParamText("Public key of the mint to display", Some("11111111111111111111111111111111"))
      ])
  }

  // `create-account`, src/data/tokenOperations.ts:63-94

  function CreateAccountCommand(): Template {
    Lit("arch-cli token create-account --mint ", Hole("mint", Lit(" --owner ", Hole("owner", Lit(" --keypair-path ", Hole("keypair-path", End))))))
  }

  function CreateAccountOp(): Operation {
    Operation(
      id := "create-account",
      opType := CreateAccount,
      command := CreateAccountCommand(),
      category := Basic,
      parameters := [
        Parameter("mint", StringKind, true, None, None),
        Parameter("owner", StringKind, true, None, None),
        Parameter("keypair-path", StringKind, true, None, None)
      ])
  }

  function CreateAccountListing(): Listing {
    Listing(
      title := "Create Token Account",
      description := "Create a new token account for a specific mint",
      example := "arch-cli token create-account --mint 11111111111111111111111111111111 --owner ./owner.json --keypair-path ./payer.json",
      parameters := [
        ParamText("Public key of the mint", Some("11111111111111111111111111111111")),
        ParamText("Path to keypair file for account owner", Some("./owner.json")),
        ParamText("Path to keypair file for transaction signing", Some("./payer.json"))
      ])
  }

  // `show-account`, src/data/tokenOperations.ts:95-112

  function ShowAccountCommand(): Template {
    Lit("arch-cli token show-account ", Hole("account-address", End))
  }

  function ShowAccountOp(): Operation {
    Operation(
      id := "show-account",
      opType := ShowAccount,
      command := ShowAccountCommand(),
      category := Basic,
      parameters := [
        Parameter("account-address", StringKind, true, None, None)
      ])
  }

  function ShowAccountListing(): Listing {
    Listing(
      title := "Show Token Account",
      description := "Display information about a token account",
      example := "arch-cli token show-account 11111111111111111111111111111111",
      parameters := [
        ParamText("Public key of the token account", Some("11111111111111111111111111111111"))
      ])
  }

  // `mint`, src/data/tokenOperations.ts:113-151

  function MintCommand(): Template {
    Lit("arch-cli token mint ", Hole("mint-address", Lit(" ", Hole("account-address", Lit(" ", Hole("amount", Lit(" --authority ", Hole("authority", End))))))))
  }

  function MintOp(): Operation {
    Operation(
      id := "mint",
      opType := Mint,
      command := MintCommand(),
      category := Basic,
      parameters := [
        Parameter("mint-address", StringKind, true, None, None),
        Parameter("account-address", StringKind, true, None, None),
        Parameter("amount", NumberKind, true, Some(Num(1000000)), None),
        Parameter("authority", StringKind, true, None, None)
      ])
  }

  function MintListing(): Listing {
    Listing(
      title := "Mint Tokens",
      description := "Mint tokens to a destination account",
      example := "arch-cli token mint 11111111111111111111111111111111 11111111111111111111111111111111 1000000 --authority ./mint-authority.json",
      parameters := [
        ParamText("Public key of the mint", Some("11111111111111111111111111111111")),
        ParamText("Public key of the destination account", Some("11111111111111111111111111111111")),
        ParamText("Amount to mint (raw amount)", None),
        ParamText("Path to keypair file for mint authority", Some("./mint-authority.json"))
      ])
  }

  // `transfer`, src/data/tokenOperations.ts:152-190

  function TransferCommand(): Template {
    Lit("arch-cli token transfer ", Hole("source-account", Lit(" ", Hole("destination-account", Lit(" ", Hole("amount", Lit(" --owner ", Hole("owner", End))))))))
  }

  function TransferOp(): Operation {
    Operation(
      id := "transfer",
      opType := Transfer,
      command := TransferCommand(),
      category := Basic,
      parameters := [
        Parameter("source-account", StringKind, true, None, None),
        Parameter("destination-account", StringKind, true, None, None),
        Parameter("amount", NumberKind, true, Some(Num(100000)), None),
        Parameter("owner", StringKind, true, None, None)
      ])
  }

  function TransferListing(): Listing {
    Listing(
      title := "Transfer Tokens",
      description := "Transfer tokens between accounts",
      example := "arch-cli token transfer 11111111111111111111111111111111 11111111111111111111111111111111 100000 --owner ./owner.json",
      parameters := [
        ParamText("Public key of source account", Some("11111111111111111111111111111111")),
        ParamText("Public key of destination account", Some("11111111111111111111111111111111")),
        ParamText("Amount to transfer (raw amount)", None),
        ParamText("Path to keypair file for account owner", Some("./owner.json"))
      ])
  }

  // `burn`, src/data/tokenOperations.ts:191-222

  function BurnCommand(): Template {
    Lit("arch-cli token burn ", Hole("account-address", Lit(" ", Hole("amount", Lit(" --owner ", Hole("owner", End))))))
  }

  function BurnOp(): Operation {
    Operation(
      id := "burn",
      opType := Burn,
      command := BurnCommand(),
      category := Basic,
      parameters := [
        Parameter("account-address", StringKind, true, None, None),
        Parameter("amount", NumberKind, true, Some(Num(10000)), None),
        Parameter("owner", StringKind, true, None, None)
      ])
  }

  function BurnListing(): Listing {
    Listing(
      title := "Burn Tokens",
      description := "Burn tokens from an account",
      example := "arch-cli token burn 11111111111111111111111111111111 10000 --owner ./owner.json",
      parameters := [
        ParamText("Public key of the account to burn from", Some("11111111111111111111111111111111")),
        ParamText("Amount to burn (raw amount)", None),
        ParamText("Path to keypair file for account owner", Some("./owner.json"))
      ])
  }

  // `approve`, src/data/tokenOperations.ts:223-261

  function ApproveCommand(): Template {
    Lit("arch-cli token approve ", Hole("account-address", Lit(" ", Hole("delegate-address", Lit(" ", Hole("amount", Lit(" --owner ", Hole("owner", End))))))))
  }

  function ApproveOp(): Operation {
    Operation(
      id := "approve",
      opType := Approve,
      command := ApproveCommand(),
      category := Basic,
      parameters := [
        Parameter("account-address", StringKind, true, None, None),
        Parameter("delegate-address", StringKind, true, None, None),
        Parameter("amount", NumberKind, true, Some(Num(50000)), None),
        Parameter("owner", StringKind, true, None, None)
      ])
  }

  function ApproveListing(): Listing {
    Listing(
      title := "Approve Delegate",
      description := "Approve a delegate to spend tokens from an account",
      example := "arch-cli token approve 11111111111111111111111111111111 11111111111111111111111111111111 50000 --owner ./owner.json",
      parameters := [
        ParamText("Public key of the account to approve", Some("11111111111111111111111111111111")),
        ParamText("Public key of the delegate", Some("11111111111111111111111111111111")),
        ParamText("Amount to approve", None),
        ParamText("Path to keypair file for account owner", Some("./owner.json"))
      ])
  }

  // `revoke`, src/data/tokenOperations.ts:262-286

  function RevokeCommand(): Template {
    Lit("arch-cli token revoke ", Hole("account-address", Lit(" --owner ", Hole("owner", End))))
  }

  function RevokeOp(): Operation {
    Operation(
      id := "revoke",
      opType := Revoke,
      command := RevokeCommand(),
      category := Basic,
      parameters := [
        Parameter("account-address", StringKind, true, None, None),
        Parameter("owner", StringKind, true, None, None)
      ])
  }

  function RevokeListing(): Listing {
    Listing(
      title := "Revoke Delegate",
      description := "Revoke delegate authority from an account",
      example := "arch-cli token revoke 11111111111111111111111111111111 --owner ./owner.json",
      parameters := [
        ParamText("Public key of the account to revoke", Some("11111111111111111111111111111111")),
        ParamText("Path to keypair file for account owner", Some("./owner.json"))
      ])
  }

  // `freeze-account`, src/data/tokenOperations.ts:287-311

  function FreezeAccountCommand(): Template {
    Lit("arch-cli token freeze-account ", Hole("account-address", Lit(" --authority ", Hole("authority", End))))
  }

  function FreezeAccountOp(): Operation {
    Operation(
      id := "freeze-account",
      opType := FreezeAccount,
      command := FreezeAccountCommand(),
      category := Basic,
      parameters := [
        Parameter("account-address", StringKind, true, None, None),
        Parameter("authority", StringKind, true, None, None)
      ])
  }

  function FreezeAccountListing(): Listing {
    Listing(
      title := "Freeze Account",
      description := "Freeze a token account",
      example := "arch-cli token freeze-account 11111111111111111111111111111111 --authority ./freeze-authority.json",
      parameters := [
        ParamText("Public key of the account to freeze", Some("11111111111111111111111111111111")),
        ParamText("Path to keypair file for freeze authority", Some("./freeze-authority.json"))
      ])
  }

  // `thaw-account`, src/data/tokenOperations.ts:312-336

  function ThawAccountCommand(): Template {
    Lit("arch-cli token thaw-account ", Hole("account-address", Lit(" --authority ", Hole("authority", End))))
  }

  function ThawAccountOp(): Operation {
    Operation(
      id := "thaw-account",
      opType := ThawAccount,
      command := ThawAccountCommand(),
      category := Basic,
      parameters := [
        Parameter("account-address", StringKind, true, None, None),
        Parameter("authority", StringKind, true, None, None)
      ])
  }

  function ThawAccountListing(): Listing {
    Listing(
      title := "Thaw Account",
      description := "Thaw a frozen token account",
      example := "arch-cli token thaw-account 11111111111111111111111111111111 --authority ./freeze-authority.json",
      parameters := [
        ParamText("Public key of the account to thaw", Some("11111111111111111111111111111111")),
        ParamText("Path to keypair file for freeze authority", Some("./freeze-authority.json"))
      ])
  }

  // `balance`, src/data/tokenOperations.ts:338-355

  function BalanceCommand(): Template {
    Lit("arch-cli token balance ", Hole("account-address", End))
  }

  function BalanceOp(): Operation {
    Operation(
      id := "balance",
      opType := Balance,
      command := BalanceCommand(),
      category := Utilities,
      parameters := [
        Parameter("account-address", StringKind, true, None, None)
      ])
  }

  function BalanceListing(): Listing {
    Listing(
      title := "Check Balance",
      description := "Display token balance for an account",
      example := "arch-cli token balance 11111111111111111111111111111111",
      parameters := [
        ParamText("Public key of the token account", Some("11111111111111111111111111111111"))
      ])
  }

  // `supply`, src/data/tokenOperations.ts:356-373

  function SupplyCommand(): Template {
    Lit("arch-cli token supply ", Hole("mint-address", End))
  }

  function SupplyOp(): Operation {
    Operation(
      id := "supply",
      opType := Supply,
      command := SupplyCommand(),
      category := Utilities,
      parameters := [
        Parameter("mint-address", StringKind, true, None, None)
      ])
  }

  function SupplyListing(): Listing {
    Listing(
      title := "Check Supply",
      description := "Display mint supply information",
      example := "arch-cli token supply 11111111111111111111111111111111",
      parameters := [
        ParamText("Public key of the mint", Some("11111111111111111111111111111111"))
      ])
  }

  // `accounts`, src/data/tokenOperations.ts:374-391

  function AccountsCommand(): Template {
    Lit("arch-cli token accounts ", Hole("mint-address", End))
  }

  function AccountsOp(): Operation {
    Operation(
      id := "accounts",
      opType := Accounts,
      command := AccountsCommand(),
      category := Utilities,
      parameters := [
        Parameter("mint-address", StringKind, true, None, None)
      ])
  }

  function AccountsListing(): Listing {
    Listing(
      title := "List Accounts",
      description := "List token accounts for a mint",
      example := "arch-cli token accounts 11111111111111111111111111111111",
      parameters := [
        ParamText("Public key of the mint", Some("11111111111111111111111111111111"))
      ])
  }

  // `mints`, src/data/tokenOperations.ts:392-401

  function MintsCommand(): Template {
    Lit("arch-cli token mints", End)
  }

  function MintsOp(): Operation {
    Operation(
      id := "mints",
      opType := Mints,
      command := MintsCommand(),
      category := Utilities,
      parameters := [])
  }

  function MintsListing(): Listing {
    Listing(
      title := "List Mints",
      description := "List all token mints",
      example := "arch-cli token mints",
      parameters := [])
  }

  // `amount-to-ui`, src/data/tokenOperations.ts:402-426

  function AmountToUiCommand(): Template {
    Lit("arch-cli token amount-to-ui ", Hole("mint-address", Lit(" ", Hole("amount", End))))
  }

  function AmountToUiOp(): Operation {
    Operation(
      id := "amount-to-ui",
      opType := AmountToUi,
      command := AmountToUiCommand(),
      category := Utilities,
      parameters := [
        Parameter("mint-address", StringKind, true, None, None),
        Parameter("amount", NumberKind, true, Some(Num(1000000)), None)
      ])
  }

  function AmountToUiListing(): Listing {
    Listing(
      title := "Convert Amount to UI",
      description := "Convert raw amount to UI format",
      example := "arch-cli token amount-to-ui 11111111111111111111111111111111 1000000",
      parameters := [
        ParamText("Public key of the mint", Some("11111111111111111111111111111111")),
        ParamText("Raw amount to convert", None)
      ])
  }

  // `ui-to-amount`, src/data/tokenOperations.ts:427-451

  function UiToAmountCommand(): Template {
    Lit("arch-cli token ui-to-amount ", Hole("mint-address", Lit(" ", Hole("ui-amount", End))))
  }

  function UiToAmountOp(): Operation {
    Operation(
      id := "ui-to-amount",
      opType := UiToAmount,
      command := UiToAmountCommand(),
      category := Utilities,
      parameters := [
        Parameter("mint-address", StringKind, true, None, None),
        Parameter("ui-amount", StringKind, true, None, None)
      ])
  }

  function UiToAmountListing(): Listing {
    Listing(
      title := "Convert UI to Amount",
      description := "Convert UI amount to raw format",
      example := "arch-cli token ui-to-amount 11111111111111111111111111111111 1.5",
      parameters := [
        ParamText("Public key of the mint", Some("11111111111111111111111111111111")),
        ParamText("UI amount to convert", Some("1.5"))
      ])
  }

  // `transfer-checked`, src/data/tokenOperations.ts:453-499

  function TransferCheckedCommand(): Template {
    Lit("arch-cli token transfer-checked ", Hole("source-account", Lit(" ", Hole("destination-account", Lit(" ", Hole("amount", Lit(" ", Hole("decimals", Lit(" --owner ", Hole("owner", End))))))))))
  }

  function TransferCheckedOp(): Operation {
    Operation(
      id := "transfer-checked",
      opType := TransferChecked,
      command := TransferCheckedCommand(),
      category := Advanced,
      parameters := [
        Parameter("source-account", StringKind, true, None, None),
        Parameter("destination-account", StringKind, true, None, None),
        Parameter("amount", NumberKind, true, Some(Num(100000)), None),
        Parameter("decimals", NumberKind, true, Some(Num(6)), Some(Validation(Some(0), Some(9), None))),
        Parameter("owner", StringKind, true, None, None)
      ])
  }

  function TransferCheckedListing(): Listing {
    Listing(
      title := "Transfer Checked",
      description := "Transfer tokens with decimal verification",
      example := "arch-cli token transfer-checked 11111111111111111111111111111111 11111111111111111111111111111111 100000 6 --owner ./owner.json",
      parameters := [
        ParamText("Public key of source account", Some("11111111111111111111111111111111")),
        ParamText("Public key of destination account", Some("11111111111111111111111111111111")),
        ParamText("Amount to transfer (raw amount)", None),
        ParamText("Expected decimals for verification", None),
        ParamText("Path to keypair file for account owner", Some("./owner.json"))
      ])
  }

  // `approve-checked`, src/data/tokenOperations.ts:500-546

  function ApproveCheckedCommand(): Template {
    Lit("arch-cli token approve-checked ", Hole("account-address", Lit(" ", Hole("delegate-address", Lit(" ", Hole("amount", Lit(" ", Hole("decimals", Lit(" --owner ", Hole("owner", End))))))))))
  }

  function ApproveCheckedOp(): Operation {
    Operation(
      id := "approve-checked",
      opType := ApproveChecked,
      command := ApproveCheckedCommand(),
      category := Advanced,
      parameters := [
        Parameter("account-address", StringKind, true, None, None),
        Parameter("delegate-address", StringKind, true, None, None),
        Parameter("amount", NumberKind, true, Some(Num(50000)), None),
        Parameter("decimals", NumberKind, true, Some(Num(6)), Some(Validation(Some(0), Some(9), None))),
        Parameter("owner", StringKind, true, None, None)
      ])
  }

  function ApproveCheckedListing(): Listing {
    Listing(
      title := "Approve Checked",
      description := "Approve delegate with decimal verification",
      example := "arch-cli token approve-checked 11111111111111111111111111111111 11111111111111111111111111111111 50000 6 --owner ./owner.json",
      parameters := [
        ParamText("Public key of the account to approve", Some("11111111111111111111111111111111")),
        ParamText("Public key of the delegate", Some("11111111111111111111111111111111")),
        ParamText("Amount to approve", None),
        ParamText("Expected decimals for verification", None),
        ParamText("Path to keypair file for account owner", Some("./owner.json"))
      ])
  }

  // `mint-to-checked`, src/data/tokenOperations.ts:547-593

  function MintToCheckedCommand(): Template {
    Lit("arch-cli token mint-to-checked ", Hole("mint-address", Lit(" ", Hole("account-address", Lit(" ", Hole("amount", Lit(" ", Hole("decimals", Lit(" --authority ", Hole("authority", End))))))))))
  }

  function MintToCheckedOp(): Operation {
    Operation(
      id := "mint-to-checked",
      opType := MintToChecked,
      command := MintToCheckedCommand(),
      category := Advanced,
      parameters := [
        Parameter("mint-address", StringKind, true, None, None),
        Parameter("account-address", StringKind, true, None, None),
        Parameter("amount", NumberKind, true, Some(Num(1000000)), None),
        Parameter("decimals", NumberKind, true, Some(Num(6)), Some(Validation(Some(0), Some(9), None))),
        Parameter("authority", StringKind, true, None, None)
      ])
  }

  function MintToCheckedListing(): Listing {
    Listing(
      title := "Mint To Checked",
      description := "Mint tokens with decimal verification",
      example := "arch-cli token mint-to-checked 11111111111111111111111111111111 11111111111111111111111111111111 1000000 6 --authority ./mint-authority.json",
      parameters := [
        ParamText("Public key of the mint", Some("11111111111111111111111111111111")),
        ParamText("Public key of the destination account", Some("11111111111111111111111111111111")),
        ParamText("Amount to mint (raw amount)", None),
        ParamText("Expected decimals for verification", None),
        ParamText("Path to keypair file for mint authority", Some("./mint-authority.json"))
      ])
  }

  // `burn-checked`, src/data/tokenOperations.ts:594-633

  function BurnCheckedCommand(): Template {
    Lit("arch-cli token burn-checked ", Hole("account-address", Lit(" ", Hole("amount", Lit(" ", Hole("decimals", Lit(" --owner ", Hole("owner", End))))))))
  }

  function BurnCheckedOp(): Operation {
    Operation(
      id := "burn-checked",
      opType := BurnChecked,
      command := BurnCheckedCommand(),
      category := Advanced,
      parameters := [
        Parameter("account-address", StringKind, true, None, None),
        Parameter("amount", NumberKind, true, Some(Num(10000)), None),
        Parameter("decimals", NumberKind, true, Some(Num(6)), Some(Validation(Some(0), Some(9), None))),
        Parameter("owner", StringKind, true, None, None)
      ])
  }

  function BurnCheckedListing(): Listing {
    Listing(
      title := "Burn Checked",
      description := "Burn tokens with decimal verification",
      example := "arch-cli token burn-checked 11111111111111111111111111111111 10000 6 --owner ./owner.json",
      parameters := [
        ParamText("Public key of the account to burn from", Some("11111111111111111111111111111111")),
        ParamText("Amount to burn (raw amount)", None),
        ParamText("Expected decimals for verification", None),
        ParamText("Path to keypair file for account owner", Some("./owner.json"))
      ])
  }

  // `set-authority`, src/data/tokenOperations.ts:634-672

  function SetAuthorityCommand(): Template {
    Lit("arch-cli token set-authority ", Hole("target-address", Lit(" --authority-type ", Hole("authority-type", Lit(" --new-authority ", Hole("new-authority", Lit(" --current-authority ", Hole("current-authority", End))))))))
  }

  function SetAuthorityOp(): Operation {
    Operation(
      id := "set-authority",
      opType := SetAuthority,
      command := SetAuthorityCommand(),
      category := Advanced,
      parameters := [
        Parameter("target-address", StringKind, true, None, None),
        Parameter("authority-type", StringKind, true, None, None),
        Parameter("new-authority", StringKind, false, None, None),
        Parameter("current-authority", StringKind, true, None, None)
      ])
  }

  function SetAuthorityListing(): Listing {
    Listing(
      title := "Set Authority",
      description := "Set authority on mint or account",
      example := "arch-cli token set-authority 11111111111111111111111111111111 --authority-type mint --new-authority 11111111111111111111111111111111 --current-authority ./current-authority.json",
      parameters := [
        ParamText("Public key of the mint or account", Some("11111111111111111111111111111111")),
        ParamText("Type of authority to set (mint, freeze, account-owner)", Some("mint")),
        ParamText("New authority address (use \"none\" to disable)", Some("11111111111111111111111111111111")),
        ParamText("Path to keypair file for current authority", Some("./current-authority.json"))
      ])
  }

  // `close-account`, src/data/tokenOperations.ts:673-704

  function CloseAccountCommand(): Template {
    Lit("arch-cli token close-account ", Hole("account-address", Lit(" ", Hole("destination-address", Lit(" --owner ", Hole("owner", End))))))
  }

  function CloseAccountOp(): Operation {
    Operation(
      id := "close-account",
      opType := CloseAccount,
      command := CloseAccountCommand(),
      category := Advanced,
      parameters := [
        Parameter("account-address", StringKind, true, None, None),
        Parameter("destination-address", StringKind, true, None, None),
        Parameter("owner", StringKind, true, None, None)
      ])
  }

  function CloseAccountListing(): Listing {
    Listing(
      title := "Close Account",
      description := "Close a token account and recover rent",
      example := "arch-cli token close-account 11111111111111111111111111111111 11111111111111111111111111111111 --owner ./owner.json",
      parameters := [
        ParamText("Public key of the account to close", Some("11111111111111111111111111111111")),
        ParamText("Public key of the destination for remaining SOL", Some("11111111111111111111111111111111")),
        ParamText("Path to keypair file for account owner", Some("./owner.json"))
      ])
  }

  // `create-multisig`, src/data/tokenOperations.ts:706-738

  function CreateMultisigCommand(): Template {
    Lit("arch-cli token create-multisig ", Hole("m", Lit(" --signers ", Hole("signers", Lit(" --keypair-path ", Hole("keypair-path", End))))))
  }

  function CreateMultisigOp(): Operation {
    Operation(
      id := "create-multisig",
      opType := CreateMultisig,
      command := CreateMultisigCommand(),
      category := Multisig,
      parameters := [
        Parameter("m", NumberKind, true, Some(Num(2)), Some(Validation(Some(1), Some(11), None))),
        Parameter("signers", StringKind, true, None, None),
        Parameter("keypair-path", StringKind, true, None, None)
      ])
  }

  function CreateMultisigListing(): Listing {
    Listing(
      title := "Create Multisig",
      description := "Create a multisignature authority",
      example := "arch-cli token create-multisig 2 --signers ./signer1.json,./signer2.json --keypair-path ./payer.json",
      parameters := [
        ParamText("Number of required signers (M)", None),
        ParamText("Comma-separated keypair paths for signers", Some("./signer1.json,./signer2.json,./signer3.json")),
        ParamText("Path to keypair file for transaction signing", Some("./payer.json"))
      ])
  }

  // `multisig-sign`, src/data/tokenOperations.ts:739-770

  function MultisigSignCommand(): Template {
    Lit("arch-cli token multisig-sign ", Hole("multisig-address", Lit(" ", Hole("transaction", Lit(" --keypair-path ", Hole("keypair-path", End))))))
  }

  function MultisigSignOp(): Operation {
    Operation(
      id := "multisig-sign",
      opType := MultisigSign,
      command := MultisigSignCommand(),
      category := Multisig,
      parameters := [
        Parameter("multisig-address", StringKind, true, None, None),
        Parameter("transaction", StringKind, true, None, None),
        Parameter("keypair-path", StringKind, true, None, None)
      ])
  }

  function MultisigSignListing(): Listing {
    Listing(
      title := "Sign Multisig",
      description := "Sign a transaction with multisig",
      example := "arch-cli token multisig-sign 11111111111111111111111111111111 base64-encoded-transaction --keypair-path ./signer.json",
      parameters := [
        ParamText("Public key of the multisig account", Some("11111111111111111111111111111111")),
        ParamText("Transaction to sign (base64 encoded)", Some("base64-encoded-transaction")),
        ParamText("Path to keypair file for the signer", Some("./signer.json"))
      ])
  }

  // `multisig-execute`, src/data/tokenOperations.ts:771-809

  function MultisigExecuteCommand(): Template {
    Lit("arch-cli token multisig-execute ", Hole("multisig-address", Lit(" ", Hole("transaction", Lit(" --signers ", Hole("signers", Lit(" --keypair-path ", Hole("keypair-path", End))))))))
  }

  function MultisigExecuteOp(): Operation {
    Operation(
      id := "multisig-execute",
      opType := MultisigExecute,
      command := MultisigExecuteCommand(),
      category := Multisig,
      parameters := [
        Parameter("multisig-address", StringKind, true, None, None),
        Parameter("transaction", StringKind, true, None, None),
        Parameter("signers", StringKind, true, None, None),
        Parameter("keypair-path", StringKind, true, None, None)
      ])
  }

  function MultisigExecuteListing(): Listing {
    Listing(
      title := "Execute Multisig",
      description := "Execute a signed multisig transaction",
      example := "arch-cli token multisig-execute 11111111111111111111111111111111 base64-encoded-transaction --signers ./signer1.json,./signer2.json --keypair-path ./payer.json",
      parameters := [
        ParamText("Public key of the multisig account", Some("11111111111111111111111111111111")),
        ParamText("Transaction to execute (base64 encoded)", Some("base64-encoded-transaction")),
        ParamText("Comma-separated keypair paths for signers", Some("./signer1.json,./signer2.json")),
        ParamText("Path to keypair file for transaction signing (fee payer)", Some("./payer.json"))
      ])
  }

  // `multisig-show`, src/data/tokenOperations.ts:810-827

  function MultisigShowCommand(): Template {
    Lit("arch-cli token multisig-show ", Hole("multisig-address", End))
  }

  function MultisigShowOp(): Operation {
    Operation(
      id := "multisig-show",
      opType := MultisigShow,
      command := MultisigShowCommand(),
      category := Multisig,
      parameters := [
        Parameter("multisig-address", StringKind, true, None, None)
      ])
  }

  function MultisigShowListing(): Listing {
    Listing(
      title := "Show Multisig",
      description := "Show multisig account information",
      example := "arch-cli token multisig-show 11111111111111111111111111111111",
      parameters := [
        ParamText("Public key of the multisig account", Some("11111111111111111111111111111111"))
      ])
  }

  // `batch-transfer`, src/data/tokenOperations.ts:829-853

  function BatchTransferCommand(): Template {
    Lit("arch-cli token batch-transfer ", Hole("transfers-file", Lit(" --keypair-path ", Hole("keypair-path", End))))
  }

  function BatchTransferOp(): Operation {
    Operation(
      id := "batch-transfer",
      opType := BatchTransfer,
      command := BatchTransferCommand(),
      category := BatchOperations,
      parameters := [
        Parameter("transfers-file", FileKind, true, None, None),
        Parameter("keypair-path", StringKind, true, None, None)
      ])
  }

  function BatchTransferListing(): Listing {
    Listing(
      title := "Batch Transfer",
      description := "Batch transfer tokens to multiple accounts",
      example := "arch-cli token batch-transfer ./transfers.json --keypair-path ./payer.json",
      parameters := [
        ParamText("JSON file containing transfer operations", Some("./transfers.json")),
        ParamText("Path to keypair file for transaction signing", Some("./payer.json"))
      ])
  }

  // `batch-mint`, src/data/tokenOperations.ts:854-878

  function BatchMintCommand(): Template {
    Lit("arch-cli token batch-mint ", Hole("mints-file", Lit(" --keypair-path ", Hole("keypair-path", End))))
  }

  function BatchMintOp(): Operation {
    Operation(
      id := "batch-mint",
      opType := BatchMint,
      command := BatchMintCommand(),
      category := BatchOperations,
      parameters := [
        Parameter("mints-file", FileKind, true, None, None),
        Parameter("keypair-path", StringKind, true, None, None)
      ])
  }

  function BatchMintListing(): Listing {
    Listing(
      title := "Batch Mint",
      description := "Batch mint tokens to multiple accounts",
      example := "arch-cli token batch-mint ./mints.json --keypair-path ./payer.json",
      parameters := [
        ParamText("JSON file containing mint operations", Some("./mints.json")),
        ParamText("Path to keypair file for transaction signing", Some("./payer.json"))
      ])
  }

  /** The entry at position `k` of `tokenOperations`, in source order. */
  function Entry(k: nat): Operation
    requires k < 29
  {
    if k < 15 then
      if k < 8 then
        if k < 4 then
          if k < 2 then
            if k == 0 then CreateMintOp() else ShowMintOp()
          else
            if k == 2 then CreateAccountOp() else ShowAccountOp()
        else
          if k < 6 then
            if k == 4 then MintOp() else TransferOp()
          else
            if k == 6 then BurnOp() else ApproveOp()
      else
        if k < 12 then
          if k < 10 then
            if k == 8 then RevokeOp() else FreezeAccountOp()
          else
            if k == 10 then ThawAccountOp() else BalanceOp()
        else
          if k < 14 then
            if k == 12 then SupplyOp() else AccountsOp()
          else
            MintsOp()
    else
      if k < 22 then
        if k < 19 then
          if k < 17 then
            if k == 15 then AmountToUiOp() else UiToAmountOp()
          else
            if k == 17 then TransferCheckedOp() else ApproveCheckedOp()
        else
          if k < 21 then
            if k == 19 then MintToCheckedOp() else BurnCheckedOp()
          else
            SetAuthorityOp()
      else
        if k < 26 then
          if k < 24 then
            if k == 22 then CloseAccountOp() else CreateMultisigOp()
          else
            if k == 24 then MultisigSignOp() else MultisigExecuteOp()
        else
          if k < 28 then
            if k == 26 then MultisigShowOp() else BatchTransferOp()
          else
            BatchMintOp()
  }

  /** `tokenOperations`: the catalog, entry by entry. */
  function TokenOperations(): seq<Operation> {
    seq(29, (k: int) requires 0 <= k < 29 => Entry(k))
  }

  /** The display text of each operation type's entry. */
  function ListingOf(t: OperationType): Listing {
    match t
    case CreateMint => CreateMintListing()
    case ShowMint => ShowMintListing()
    case CreateAccount => CreateAccountListing()
    case ShowAccount => ShowAccountListing()
    case Mint => MintListing()
    case Transfer => TransferListing()
    case Burn => BurnListing()
    case Approve => ApproveListing()
    case Revoke => RevokeListing()
    case FreezeAccount => FreezeAccountListing()
    case ThawAccount => ThawAccountListing()
    case Balance => BalanceListing()
    case Supply => SupplyListing()
    case Accounts => AccountsListing()
    case Mints => MintsListing()
    case AmountToUi => AmountToUiListing()
    case UiToAmount => UiToAmountListing()
    case TransferChecked => TransferCheckedListing()
    case ApproveChecked => ApproveCheckedListing()
    case MintToChecked => MintToCheckedListing()
    case BurnChecked => BurnCheckedListing()
    case SetAuthority => SetAuthorityListing()
    case CloseAccount => CloseAccountListing()
    case CreateMultisig => CreateMultisigListing()
    case MultisigSign => MultisigSignListing()
    case MultisigExecute => MultisigExecuteListing()
    case MultisigShow => MultisigShowListing()
    case BatchTransfer => BatchTransferListing()
    case BatchMint => BatchMintListing()
  }

  /** The position of each operation type's entry in the catalog. */
  function CatalogIndex(t: OperationType): nat {
    match t
    case CreateMint => 0
    case ShowMint => 1
    case CreateAccount => 2
    case ShowAccount => 3
    case Mint => 4
    case Transfer => 5
    case Burn => 6
    case Approve => 7
    case Revoke => 8
    case FreezeAccount => 9
    case ThawAccount => 10
    case Balance => 11
    case Supply => 12
    case Accounts => 13
    case Mints => 14
    case AmountToUi => 15
    case UiToAmount => 16
    case TransferChecked => 17
    case ApproveChecked => 18
    case MintToChecked => 19
    case BurnChecked => 20
    case SetAuthority => 21
    case CloseAccount => 22
    case CreateMultisig => 23
    case MultisigSign => 24
    case MultisigExecute => 25
    case MultisigShow => 26
    case BatchTransfer => 27
    case BatchMint => 28
  }

  /** The operation type of the entry at position `k`. */
  function TypeAt(k: nat): OperationType
    requires k < 29
  {
    match k
    case 0 => CreateMint
    case 1 => ShowMint
    case 2 => CreateAccount
    case 3 => ShowAccount
    case 4 => Mint
    case 5 => Transfer
    case 6 => Burn
    case 7 => Approve
    case 8 => Revoke
    case 9 => FreezeAccount
    case 10 => ThawAccount
    case 11 => Balance
    case 12 => Supply
    case 13 => Accounts
    case 14 => Mints
    case 15 => AmountToUi
    case 16 => UiToAmount
    case 17 => TransferChecked
    case 18 => ApproveChecked
    case 19 => MintToChecked
    case 20 => BurnChecked
    case 21 => SetAuthority
    case 22 => CloseAccount
    case 23 => CreateMultisig
    case 24 => MultisigSign
    case 25 => MultisigExecute
    case 26 => MultisigShow
    case 27 => BatchTransfer
    case _ => BatchMint
  }

  // ---------------------------------------------------------------------
  // What every entry satisfies
  // ---------------------------------------------------------------------

  /** A default only on a `number` parameter, bounds in order, and the default inside them. */
  predicate DefaultConsistent(p: Parameter) {
    (p.defaultValue.Some? ==> p.kind == NumberKind && p.defaultValue.value.Num?) &&
    (MinOf(p).Some? && MaxOf(p).Some? ==> MinOf(p).value <= MaxOf(p).value) &&
    (p.defaultValue.Some? && p.defaultValue.value.Num? && MinOf(p).Some? ==>
      MinOf(p).value <= p.defaultValue.value.n) &&
    (p.defaultValue.Some? && p.defaultValue.value.Num? && MaxOf(p).Some? ==>
      p.defaultValue.value.n <= MaxOf(p).value)
  }

  /** The command starts with the literal `arch-cli token `. */
  predicate StartsWithCli(t: Template) {
    t.Lit? && |t.text| >= 15 && t.text[..15] == "arch-cli token "
  }

  /**
   * Placeholder names and parameter names: each placeholder at most once
   * and declared, parameter names distinct and free of braces.
   */
  predicate NameChecks(placeholders: seq<string>, declared: seq<string>) {
    Distinct(placeholders) &&
    (forall n :: n in placeholders ==> n in declared) &&
    Distinct(declared) &&
    (forall n :: n in declared ==> BraceFree(n))
  }

  /**
   * The entry checks, what the entry at position `k` satisfies: the `k`-th
   * operation type and that type's literal as id, a well-formed command
   * starting with `arch-cli token `, each placeholder declared and used
   * once, distinct brace-free parameter names, and defaults only on
   * `number` parameters, within bounds that are in order.
   */
  predicate EntryChecks(op: Operation, k: nat) {
    k < 29 && op.opType == TypeAt(k) && op.id == TypeName(TypeAt(k)) &&
    WellFormed(op.command) &&
    StartsWithCli(op.command) &&
    NameChecks(Names(op.command), ParamNames(op.parameters)) &&
    (forall i :: 0 <= i < |op.parameters| ==> DefaultConsistent(op.parameters[i]))
  }

  /** The entry checks, from facts established separately about one entry. */
  lemma EntryFromParts(op: Operation, k: nat, command: Template, placeholders: seq<string>, declared: seq<string>)
    requires k < 29 && op.opType == TypeAt(k) && op.id == TypeName(TypeAt(k)) && op.command == command
    requires WellFormed(command) && StartsWithCli(command)
    requires Names(command) == placeholders && ParamNames(op.parameters) == declared
    requires NameChecks(placeholders, declared)
    requires forall i :: 0 <= i < |op.parameters| ==> DefaultConsistent(op.parameters[i])
    ensures EntryChecks(op, k)
  {
  }

  // ---------------------------------------------------------------------
  // The literal pieces of the commands hold no `{`, and the parameter
  // names no brace: one lemma per distinct string, so that each is checked
  // on its own.
  // ---------------------------------------------------------------------

  lemma CreateMintDecimalsHeadHasNoBrace()
    ensures '{' !in "arch-cli token create-mint --decimals "
  {
  }

  lemma MintAuthorityFlagHasNoBrace()
    ensures '{' !in " --mint-authority "
  {
  }

  lemma KeypairPathFlagHasNoBrace()
    ensures '{' !in " --keypair-path "
  {
  }

  lemma ShowMintHeadHasNoBrace()
    ensures '{' !in "arch-cli token show-mint "
  {
  }

  lemma CreateAccountMintHeadHasNoBrace()
    ensures '{' !in "arch-cli token create-account --mint "
  {
  }

  lemma OwnerFlagHasNoBrace()
    ensures '{' !in " --owner "
  {
  }

  lemma ShowAccountHeadHasNoBrace()
    ensures '{' !in "arch-cli token show-account "
  {
  }

  lemma MintHeadHasNoBrace()
    ensures '{' !in "arch-cli token mint "
  {
  }

  lemma SpaceHasNoBrace()
    ensures '{' !in " "
  {
  }

  lemma AuthorityFlagHasNoBrace()
    ensures '{' !in " --authority "
  {
  }

  lemma TransferHeadHasNoBrace()
    ensures '{' !in "arch-cli token transfer "
  {
  }

  lemma BurnHeadHasNoBrace()
    ensures '{' !in "arch-cli token burn "
  {
  }

  lemma ApproveHeadHasNoBrace()
    ensures '{' !in "arch-cli token approve "
  {
  }

  lemma RevokeHeadHasNoBrace()
    ensures '{' !in "arch-cli token revoke "
  {
  }

  lemma FreezeAccountHeadHasNoBrace()
    ensures '{' !in "arch-cli token freeze-account "
  {
  }

  lemma ThawAccountHeadHasNoBrace()
    ensures '{' !in "arch-cli token thaw-account "
  {
  }

  lemma BalanceHeadHasNoBrace()
    ensures '{' !in "arch-cli token balance "
  {
  }

  lemma SupplyHeadHasNoBrace()
    ensures '{' !in "arch-cli token supply "
  {
  }

  lemma AccountsHeadHasNoBrace()
    ensures '{' !in "arch-cli token accounts "
  {
  }

  lemma MintsHeadHasNoBrace()
    ensures '{' !in "arch-cli token mints"
  {
  }

  lemma AmountToUiHeadHasNoBrace()
    ensures '{' !in "arch-cli token amount-to-ui "
  {
  }

  lemma UiToAmountHeadHasNoBrace()
    ensures '{' !in "arch-cli token ui-to-amount "
  {
  }

  lemma TransferCheckedHeadHasNoBrace()
    ensures '{' !in "arch-cli token transfer-checked "
  {
  }

  lemma ApproveCheckedHeadHasNoBrace()
    ensures '{' !in "arch-cli token approve-checked "
  {
  }

  lemma MintToCheckedHeadHasNoBrace()
    ensures '{' !in "arch-cli token mint-to-checked "
  {
  }

  lemma BurnCheckedHeadHasNoBrace()
    ensures '{' !in "arch-cli token burn-checked "
  {
  }

  lemma SetAuthorityHeadHasNoBrace()
    ensures '{' !in "arch-cli token set-authority "
  {
  }

  lemma AuthorityTypeFlagHasNoBrace()
    ensures '{' !in " --authority-type "
  {
  }

  lemma NewAuthorityFlagHasNoBrace()
    ensures '{' !in " --new-authority "
  {
  }

  lemma CurrentAuthorityFlagHasNoBrace()
    ensures '{' !in " --current-authority "
  {
  }

  lemma CloseAccountHeadHasNoBrace()
    ensures '{' !in "arch-cli token close-account "
  {
  }

  lemma CreateMultisigHeadHasNoBrace()
    ensures '{' !in "arch-cli token create-multisig "
  {
  }

  lemma SignersFlagHasNoBrace()
    ensures '{' !in " --signers "
  {
  }

  lemma MultisigSignHeadHasNoBrace()
    ensures '{' !in "arch-cli token multisig-sign "
  {
  }

  lemma MultisigExecuteHeadHasNoBrace()
    ensures '{' !in "arch-cli token multisig-execute "
  {
  }

  lemma MultisigShowHeadHasNoBrace()
    ensures '{' !in "arch-cli token multisig-show "
  {
  }

  lemma BatchTransferHeadHasNoBrace()
    ensures '{' !in "arch-cli token batch-transfer "
  {
  }

  lemma BatchMintHeadHasNoBrace()
    ensures '{' !in "arch-cli token batch-mint "
  {
  }

  lemma DecimalsNameIsBraceFree()
    ensures BraceFree("decimals")
  {
  }

  lemma MintAuthorityNameIsBraceFree()
    ensures BraceFree("mint-authority")
  {
  }

  lemma KeypairPathNameIsBraceFree()
    ensures BraceFree("keypair-path")
  {
  }

  lemma FreezeAuthorityNameIsBraceFree()
    ensures BraceFree("freeze-authority")
  {
  }

  lemma MintAddressNameIsBraceFree()
    ensures BraceFree("mint-address")
  {
  }

  lemma MintNameIsBraceFree()
    ensures BraceFree("mint")
  {
  }

  lemma OwnerNameIsBraceFree()
    ensures BraceFree("owner")
  {
  }

  lemma AccountAddressNameIsBraceFree()
    ensures BraceFree("account-address")
  {
  }

  lemma AmountNameIsBraceFree()
    ensures BraceFree("amount")
  {
  }

  lemma AuthorityNameIsBraceFree()
    ensures BraceFree("authority")
  {
  }

  lemma SourceAccountNameIsBraceFree()
    ensures BraceFree("source-account")
  {
  }

  lemma DestinationAccountNameIsBraceFree()
    ensures BraceFree("destination-account")
  {
  }

  lemma DelegateAddressNameIsBraceFree()
    ensures BraceFree("delegate-address")
  {
  }

  lemma UiAmountNameIsBraceFree()
    ensures BraceFree("ui-amount")
  {
  }

  lemma TargetAddressNameIsBraceFree()
    ensures BraceFree("target-address")
  {
  }

  lemma AuthorityTypeNameIsBraceFree()
    ensures BraceFree("authority-type")
  {
  }

  lemma NewAuthorityNameIsBraceFree()
    ensures BraceFree("new-authority")
  {
  }

  lemma CurrentAuthorityNameIsBraceFree()
    ensures BraceFree("current-authority")
  {
  }

  lemma DestinationAddressNameIsBraceFree()
    ensures BraceFree("destination-address")
  {
  }

  lemma MNameIsBraceFree()
    ensures BraceFree("m")
  {
  }

  lemma SignersNameIsBraceFree()
    ensures BraceFree("signers")
  {
  }

  lemma MultisigAddressNameIsBraceFree()
    ensures BraceFree("multisig-address")
  {
  }

  lemma TransactionNameIsBraceFree()
    ensures BraceFree("transaction")
  {
  }

  lemma TransfersFileNameIsBraceFree()
    ensures BraceFree("transfers-file")
  {
  }

  lemma MintsFileNameIsBraceFree()
    ensures BraceFree("mints-file")
  {
  }

  // ---------------------------------------------------------------------
  // The entry checks, one entry at a time: every fact is established on
  // its own before they are put together.
  // ---------------------------------------------------------------------

  lemma CreateMintWellFormed()
    ensures WellFormed(CreateMintCommand())
  {
    CreateMintDecimalsHeadHasNoBrace();
    MintAuthorityFlagHasNoBrace();
    KeypairPathFlagHasNoBrace();
    DecimalsNameIsBraceFree();
    MintAuthorityNameIsBraceFree();
    KeypairPathNameIsBraceFree();
  }

  lemma CreateMintPlaceholders()
    ensures Names(CreateMintCommand()) == ["decimals", "mint-authority", "keypair-path"]
  {
  }

  lemma CreateMintDeclared()
    ensures ParamNames(CreateMintOp().parameters) == ["decimals", "mint-authority", "freeze-authority", "keypair-path"]
  {
  }

  lemma CreateMintNameChecks()
    ensures NameChecks(["decimals", "mint-authority", "keypair-path"], ["decimals", "mint-authority", "freeze-authority", "keypair-path"])
  {
    DecimalsNameIsBraceFree();
    MintAuthorityNameIsBraceFree();
    FreezeAuthorityNameIsBraceFree();
    KeypairPathNameIsBraceFree();
  }

  lemma CreateMintStartsWithCli()
    ensures StartsWithCli(CreateMintCommand())
  {
  }

  lemma CreateMintIdentity()
    ensures CreateMintOp().opType == TypeAt(0) && CreateMintOp().id == TypeName(TypeAt(0))
    ensures CreateMintOp().command == CreateMintCommand()
  {
  }

  lemma CreateMintDefaults()
    ensures var ps := CreateMintOp().parameters; forall i :: 0 <= i < |ps| ==> DefaultConsistent(ps[i])
  {
  }

  /** `create-mint` passes the entry checks at position 0. */
  lemma CheckCreateMint()
    ensures EntryChecks(CreateMintOp(), 0)
  {
    CreateMintWellFormed();
    CreateMintPlaceholders();
    CreateMintDeclared();
    CreateMintNameChecks();
    CreateMintDefaults();
    CreateMintIdentity();
    CreateMintStartsWithCli();
    EntryFromParts(CreateMintOp(), 0, CreateMintCommand(), ["decimals", "mint-authority", "keypair-path"], ["decimals", "mint-authority", "freeze-authority", "keypair-path"]);
  }

  lemma CreateMintInCatalog()
    ensures TokenOperations()[0] == CreateMintOp()
  {
  }

  lemma CheckedAt0()
    ensures EntryChecks(TokenOperations()[0], 0)
  {
    CheckCreateMint();
    CreateMintInCatalog();
  }


  lemma ShowMintWellFormed()
    ensures WellFormed(ShowMintCommand())
  {
    ShowMintHeadHasNoBrace();
    MintAddressNameIsBraceFree();
  }

  lemma ShowMintPlaceholders()
    ensures Names(ShowMintCommand()) == ["mint-address"]
  {
  }

  lemma ShowMintDeclared()
    ensures ParamNames(ShowMintOp().parameters) == ["mint-address"]
  {
  }

  lemma ShowMintNameChecks()
    ensures NameChecks(["mint-address"], ["mint-address"])
  {
    MintAddressNameIsBraceFree();
  }

  lemma ShowMintStartsWithCli()
    ensures StartsWithCli(ShowMintCommand())
  {
  }

  lemma ShowMintIdentity()
    ensures ShowMintOp().opType == TypeAt(1) && ShowMintOp().id == TypeName(TypeAt(1))
    ensures ShowMintOp().command == ShowMintCommand()
  {
  }

  lemma ShowMintDefaults()
    ensures var ps := ShowMintOp().parameters; forall i :: 0 <= i < |ps| ==> DefaultConsistent(ps[i])
  {
  }

  /** `show-mint` passes the entry checks at position 1. */
  lemma CheckShowMint()
    ensures EntryChecks(ShowMintOp(), 1)
  {
    ShowMintWellFormed();
    ShowMintPlaceholders();
    ShowMintDeclared();
    ShowMintNameChecks();
    ShowMintDefaults();
    ShowMintIdentity();
    ShowMintStartsWithCli();
    EntryFromParts(ShowMintOp(), 1, ShowMintCommand(), ["mint-address"], ["mint-address"]);
  }

  lemma ShowMintInCatalog()
    ensures TokenOperations()[1] == ShowMintOp()
  {
  }

  lemma CheckedAt1()
    ensures EntryChecks(TokenOperations()[1], 1)
  {
    CheckShowMint();
    ShowMintInCatalog();
  }


  lemma CreateAccountWellFormed()
    ensures WellFormed(CreateAccountCommand())
  {
    CreateAccountMintHeadHasNoBrace();
    OwnerFlagHasNoBrace();
    KeypairPathFlagHasNoBrace();
    MintNameIsBraceFree();
    OwnerNameIsBraceFree();
    KeypairPathNameIsBraceFree();
  }

  lemma CreateAccountPlaceholders()
    ensures Names(CreateAccountCommand()) == ["mint", "owner", "keypair-path"]
  {
  }

  lemma CreateAccountDeclared()
    ensures ParamNames(CreateAccountOp().parameters) == ["mint", "owner", "keypair-path"]
  {
  }

  lemma CreateAccountNameChecks()
    ensures NameChecks(["mint", "owner", "keypair-path"], ["mint", "owner", "keypair-path"])
  {
    MintNameIsBraceFree();
    OwnerNameIsBraceFree();
    KeypairPathNameIsBraceFree();
  }

  lemma CreateAccountStartsWithCli()
    ensures StartsWithCli(CreateAccountCommand())
  {
  }

  lemma CreateAccountIdentity()
    ensures CreateAccountOp().opType == TypeAt(2) && CreateAccountOp().id == TypeName(TypeAt(2))
    ensures CreateAccountOp().command == CreateAccountCommand()
  {
  }

  lemma CreateAccountDefaults()
    ensures var ps := CreateAccountOp().parameters; forall i :: 0 <= i < |ps| ==> DefaultConsistent(ps[i])
  {
  }

  /** `create-account` passes the entry checks at position 2. */
  lemma CheckCreateAccount()
    ensures EntryChecks(CreateAccountOp(), 2)
  {
    CreateAccountWellFormed();
    CreateAccountPlaceholders();
    CreateAccountDeclared();
    CreateAccountNameChecks();
    CreateAccountDefaults();
    CreateAccountIdentity();
    CreateAccountStartsWithCli();
    EntryFromParts(CreateAccountOp(), 2, CreateAccountCommand(), ["mint", "owner", "keypair-path"], ["mint", "owner", "keypair-path"]);
  }

  lemma CreateAccountInCatalog()
    ensures TokenOperations()[2] == CreateAccountOp()
  {
  }

  lemma CheckedAt2()
    ensures EntryChecks(TokenOperations()[2], 2)
  {
    CheckCreateAccount();
    CreateAccountInCatalog();
  }


  lemma ShowAccountWellFormed()
    ensures WellFormed(ShowAccountCommand())
  {
    ShowAccountHeadHasNoBrace();
    AccountAddressNameIsBraceFree();
  }

  lemma ShowAccountPlaceholders()
    ensures Names(ShowAccountCommand()) == ["account-address"]
  {
  }

  lemma ShowAccountDeclared()
    ensures ParamNames(ShowAccountOp().parameters) == ["account-address"]
  {
  }

  lemma ShowAccountNameChecks()
    ensures NameChecks(["account-address"], ["account-address"])
  {
    AccountAddressNameIsBraceFree();
  }

  lemma ShowAccountStartsWithCli()
    ensures StartsWithCli(ShowAccountCommand())
  {
  }

  lemma ShowAccountIdentity()
    ensures ShowAccountOp().opType == TypeAt(3) && ShowAccountOp().id == TypeName(TypeAt(3))
    ensures ShowAccountOp().command == ShowAccountCommand()
  {
  }

  lemma ShowAccountDefaults()
    ensures var ps := ShowAccountOp().parameters; forall i :: 0 <= i < |ps| ==> DefaultConsistent(ps[i])
  {
  }

  /** `show-account` passes the entry checks at position 3. */
  lemma CheckShowAccount()
    ensures EntryChecks(ShowAccountOp(), 3)
  {
    ShowAccountWellFormed();
    ShowAccountPlaceholders();
    ShowAccountDeclared();
    ShowAccountNameChecks();
    ShowAccountDefaults();
    ShowAccountIdentity();
    ShowAccountStartsWithCli();
    EntryFromParts(ShowAccountOp(), 3, ShowAccountCommand(), ["account-address"], ["account-address"]);
  }

  lemma ShowAccountInCatalog()
    ensures TokenOperations()[3] == ShowAccountOp()
  {
  }

  lemma CheckedAt3()
    ensures EntryChecks(TokenOperations()[3], 3)
  {
    CheckShowAccount();
    ShowAccountInCatalog();
  }


  lemma MintWellFormed()
    ensures WellFormed(MintCommand())
  {
    MintHeadHasNoBrace();
    SpaceHasNoBrace();
    SpaceHasNoBrace();
    AuthorityFlagHasNoBrace();
    MintAddressNameIsBraceFree();
    AccountAddressNameIsBraceFree();
    AmountNameIsBraceFree();
    AuthorityNameIsBraceFree();
  }

  lemma MintPlaceholders()
    ensures Names(MintCommand()) == ["mint-address", "account-address", "amount", "authority"]
  {
  }

  lemma MintDeclared()
    ensures ParamNames(MintOp().parameters) == ["mint-address", "account-address", "amount", "authority"]
  {
  }

  lemma MintNameChecks()
    ensures NameChecks(["mint-address", "account-address", "amount", "authority"], ["mint-address", "account-address", "amount", "authority"])
  {
    MintAddressNameIsBraceFree();
    AccountAddressNameIsBraceFree();
    AmountNameIsBraceFree();
    AuthorityNameIsBraceFree();
  }

  lemma MintStartsWithCli()
    ensures StartsWithCli(MintCommand())
  {
  }

  lemma MintIdentity()
    ensures MintOp().opType == TypeAt(4) && MintOp().id == TypeName(TypeAt(4))
    ensures MintOp().command == MintCommand()
  {
  }

  lemma MintDefaults()
    ensures var ps := MintOp().parameters; forall i :: 0 <= i < |ps| ==> DefaultConsistent(ps[i])
  {
  }

  /** `mint` passes the entry checks at position 4. */
  lemma CheckMint()
    ensures EntryChecks(MintOp(), 4)
  {
    MintWellFormed();
    MintPlaceholders();
    MintDeclared();
    MintNameChecks();
    MintDefaults();
    MintIdentity();
    MintStartsWithCli();
    EntryFromParts(MintOp(), 4, MintCommand(), ["mint-address", "account-address", "amount", "authority"], ["mint-address", "account-address", "amount", "authority"]);
  }

  lemma MintInCatalog()
    ensures TokenOperations()[4] == MintOp()
  {
  }

  lemma CheckedAt4()
    ensures EntryChecks(TokenOperations()[4], 4)
  {
    CheckMint();
    MintInCatalog();
  }


  lemma TransferWellFormed()
    ensures WellFormed(TransferCommand())
  {
    TransferHeadHasNoBrace();
    SpaceHasNoBrace();
    SpaceHasNoBrace();
    OwnerFlagHasNoBrace();
    SourceAccountNameIsBraceFree();
    DestinationAccountNameIsBraceFree();
    AmountNameIsBraceFree();
    OwnerNameIsBraceFree();
  }

  lemma TransferPlaceholders()
    ensures Names(TransferCommand()) == ["source-account", "destination-account", "amount", "owner"]
  {
  }

  lemma TransferDeclared()
    ensures ParamNames(TransferOp().parameters) == ["source-account", "destination-account", "amount", "owner"]
  {
  }

  lemma TransferNameChecks()
    ensures NameChecks(["source-account", "destination-account", "amount", "owner"], ["source-account", "destination-account", "amount", "owner"])
  {
    SourceAccountNameIsBraceFree();
    DestinationAccountNameIsBraceFree();
    AmountNameIsBraceFree();
    OwnerNameIsBraceFree();
  }

  lemma TransferStartsWithCli()
    ensures StartsWithCli(TransferCommand())
  {
  }

  lemma TransferIdentity()
    ensures TransferOp().opType == TypeAt(5) && TransferOp().id == TypeName(TypeAt(5))
    ensures TransferOp().command == TransferCommand()
  {
  }

  lemma TransferDefaults()
    ensures var ps := TransferOp().parameters; forall i :: 0 <= i < |ps| ==> DefaultConsistent(ps[i])
  {
  }

  /** `transfer` passes the entry checks at position 5. */
  lemma CheckTransfer()
    ensures EntryChecks(TransferOp(), 5)
  {
    TransferWellFormed();
    TransferPlaceholders();
    TransferDeclared();
    TransferNameChecks();
    TransferDefaults();
    TransferIdentity();
    TransferStartsWithCli();
    EntryFromParts(TransferOp(), 5, TransferCommand(), ["source-account", "destination-account", "amount", "owner"], ["source-account", "destination-account", "amount", "owner"]);
  }

  lemma TransferInCatalog()
    ensures TokenOperations()[5] == TransferOp()
  {
  }

  lemma CheckedAt5()
    ensures EntryChecks(TokenOperations()[5], 5)
  {
    CheckTransfer();
    TransferInCatalog();
  }


  lemma BurnWellFormed()
    ensures WellFormed(BurnCommand())
  {
    BurnHeadHasNoBrace();
    SpaceHasNoBrace();
    OwnerFlagHasNoBrace();
    AccountAddressNameIsBraceFree();
    AmountNameIsBraceFree();
    OwnerNameIsBraceFree();
  }

  lemma BurnPlaceholders()
    ensures Names(BurnCommand()) == ["account-address", "amount", "owner"]
  {
  }

  lemma BurnDeclared()
    ensures ParamNames(BurnOp().parameters) == ["account-address", "amount", "owner"]
  {
  }

  lemma BurnNameChecks()
    ensures NameChecks(["account-address", "amount", "owner"], ["account-address", "amount", "owner"])
  {
    AccountAddressNameIsBraceFree();
    AmountNameIsBraceFree();
    OwnerNameIsBraceFree();
  }

  lemma BurnStartsWithCli()
    ensures StartsWithCli(BurnCommand())
  {
  }

  lemma BurnIdentity()
    ensures BurnOp().opType == TypeAt(6) && BurnOp().id == TypeName(TypeAt(6))
    ensures BurnOp().command == BurnCommand()
  {
  }

  lemma BurnDefaults()
    ensures var ps := BurnOp().parameters; forall i :: 0 <= i < |ps| ==> DefaultConsistent(ps[i])
  {
  }

  /** `burn` passes the entry checks at position 6. */
  lemma CheckBurn()
    ensures EntryChecks(BurnOp(), 6)
  {
    BurnWellFormed();
    BurnPlaceholders();
    BurnDeclared();
    BurnNameChecks();
    BurnDefaults();
    BurnIdentity();
    BurnStartsWithCli();
    EntryFromParts(BurnOp(), 6, BurnCommand(), ["account-address", "amount", "owner"], ["account-address", "amount", "owner"]);
  }

  lemma BurnInCatalog()
    ensures TokenOperations()[6] == BurnOp()
  {
  }

  lemma CheckedAt6()
    ensures EntryChecks(TokenOperations()[6], 6)
  {
    CheckBurn();
    BurnInCatalog();
  }


  lemma ApproveWellFormed()
    ensures WellFormed(ApproveCommand())
  {
    ApproveHeadHasNoBrace();
    SpaceHasNoBrace();
    SpaceHasNoBrace();
    OwnerFlagHasNoBrace();
    AccountAddressNameIsBraceFree();
    DelegateAddressNameIsBraceFree();
    AmountNameIsBraceFree();
    OwnerNameIsBraceFree();
  }

  lemma ApprovePlaceholders()
    ensures Names(ApproveCommand()) == ["account-address", "delegate-address", "amount", "owner"]
  {
  }

  lemma ApproveDeclared()
    ensures ParamNames(ApproveOp().parameters) == ["account-address", "delegate-address", "amount", "owner"]
  {
  }

  lemma ApproveNameChecks()
    ensures NameChecks(["account-address", "delegate-address", "amount", "owner"], ["account-address", "delegate-address", "amount", "owner"])
  {
    AccountAddressNameIsBraceFree();
    DelegateAddressNameIsBraceFree();
    AmountNameIsBraceFree();
    OwnerNameIsBraceFree();
  }

  lemma ApproveStartsWithCli()
    ensures StartsWithCli(ApproveCommand())
  {
  }

  lemma ApproveIdentity()
    ensures ApproveOp().opType == TypeAt(7) && ApproveOp().id == TypeName(TypeAt(7))
    ensures ApproveOp().command == ApproveCommand()
  {
  }

  lemma ApproveDefaults()
    ensures var ps := ApproveOp().parameters; forall i :: 0 <= i < |ps| ==> DefaultConsistent(ps[i])
  {
  }

  /** `approve` passes the entry checks at position 7. */
  lemma CheckApprove()
    ensures EntryChecks(ApproveOp(), 7)
  {
    ApproveWellFormed();
    ApprovePlaceholders();
    ApproveDeclared();
    ApproveNameChecks();
    ApproveDefaults();
    ApproveIdentity();
    ApproveStartsWithCli();
    EntryFromParts(ApproveOp(), 7, ApproveCommand(), ["account-address", "delegate-address", "amount", "owner"], ["account-address", "delegate-address", "amount", "owner"]);
  }

  lemma ApproveInCatalog()
    ensures TokenOperations()[7] == ApproveOp()
  {
  }

  lemma CheckedAt7()
    ensures EntryChecks(TokenOperations()[7], 7)
  {
    CheckApprove();
    ApproveInCatalog();
  }


  lemma RevokeWellFormed()
    ensures WellFormed(RevokeCommand())
  {
    RevokeHeadHasNoBrace();
    OwnerFlagHasNoBrace();
    AccountAddressNameIsBraceFree();
    OwnerNameIsBraceFree();
  }

  lemma RevokePlaceholders()
    ensures Names(RevokeCommand()) == ["account-address", "owner"]
  {
  }

  lemma RevokeDeclared()
    ensures ParamNames(RevokeOp().parameters) == ["account-address", "owner"]
  {
  }

  lemma RevokeNameChecks()
    ensures NameChecks(["account-address", "owner"], ["account-address", "owner"])
  {
    AccountAddressNameIsBraceFree();
    OwnerNameIsBraceFree();
  }

  lemma RevokeStartsWithCli()
    ensures StartsWithCli(RevokeCommand())
  {
  }

  lemma RevokeIdentity()
    ensures RevokeOp().opType == TypeAt(8) && RevokeOp().id == TypeName(TypeAt(8))
    ensures RevokeOp().command == RevokeCommand()
  {
  }

  lemma RevokeDefaults()
    ensures var ps := RevokeOp().parameters; forall i :: 0 <= i < |ps| ==> DefaultConsistent(ps[i])
  {
  }

  /** `revoke` passes the entry checks at position 8. */
  lemma CheckRevoke()
    ensures EntryChecks(RevokeOp(), 8)
  {
    RevokeWellFormed();
    RevokePlaceholders();
    RevokeDeclared();
    RevokeNameChecks();
    RevokeDefaults();
    RevokeIdentity();
    RevokeStartsWithCli();
    EntryFromParts(RevokeOp(), 8, RevokeCommand(), ["account-address", "owner"], ["account-address", "owner"]);
  }

  lemma RevokeInCatalog()
    ensures TokenOperations()[8] == RevokeOp()
  {
  }

  lemma CheckedAt8()
    ensures EntryChecks(TokenOperations()[8], 8)
  {
    CheckRevoke();
    RevokeInCatalog();
  }


  lemma FreezeAccountWellFormed()
    ensures WellFormed(FreezeAccountCommand())
  {
    FreezeAccountHeadHasNoBrace();
    AuthorityFlagHasNoBrace();
    AccountAddressNameIsBraceFree();
    AuthorityNameIsBraceFree();
  }

  lemma FreezeAccountPlaceholders()
    ensures Names(FreezeAccountCommand()) == ["account-address", "authority"]
  {
  }

  lemma FreezeAccountDeclared()
    ensures ParamNames(FreezeAccountOp().parameters) == ["account-address", "authority"]
  {
  }

  lemma FreezeAccountNameChecks()
    ensures NameChecks(["account-address", "authority"], ["account-address", "authority"])
  {
    AccountAddressNameIsBraceFree();
    AuthorityNameIsBraceFree();
  }

  lemma FreezeAccountStartsWithCli()
    ensures StartsWithCli(FreezeAccountCommand())
  {
  }

  lemma FreezeAccountIdentity()
    ensures FreezeAccountOp().opType == TypeAt(9) && FreezeAccountOp().id == TypeName(TypeAt(9))
    ensures FreezeAccountOp().command == FreezeAccountCommand()
  {
  }

  lemma FreezeAccountDefaults()
    ensures var ps := FreezeAccountOp().parameters; forall i :: 0 <= i < |ps| ==> DefaultConsistent(ps[i])
  {
  }

  /** `freeze-account` passes the entry checks at position 9. */
  lemma CheckFreezeAccount()
    ensures EntryChecks(FreezeAccountOp(), 9)
  {
    FreezeAccountWellFormed();
    FreezeAccountPlaceholders();
    FreezeAccountDeclared();
    FreezeAccountNameChecks();
    FreezeAccountDefaults();
    FreezeAccountIdentity();
    FreezeAccountStartsWithCli();
    EntryFromParts(FreezeAccountOp(), 9, FreezeAccountCommand(), ["account-address", "authority"], ["account-address", "authority"]);
  }

  lemma FreezeAccountInCatalog()
    ensures TokenOperations()[9] == FreezeAccountOp()
  {
  }

  lemma CheckedAt9()
    ensures EntryChecks(TokenOperations()[9], 9)
  {
    CheckFreezeAccount();
    FreezeAccountInCatalog();
  }


  lemma ThawAccountWellFormed()
    ensures WellFormed(ThawAccountCommand())
  {
    ThawAccountHeadHasNoBrace();
    AuthorityFlagHasNoBrace();
    AccountAddressNameIsBraceFree();
    AuthorityNameIsBraceFree();
  }

  lemma ThawAccountPlaceholders()
    ensures Names(ThawAccountCommand()) == ["account-address", "authority"]
  {
  }

  lemma ThawAccountDeclared()
    ensures ParamNames(ThawAccountOp().parameters) == ["account-address", "authority"]
  {
  }

  lemma ThawAccountNameChecks()
    ensures NameChecks(["account-address", "authority"], ["account-address", "authority"])
  {
    AccountAddressNameIsBraceFree();
    AuthorityNameIsBraceFree();
  }

  lemma ThawAccountStartsWithCli()
    ensures StartsWithCli(ThawAccountCommand())
  {
  }

  lemma ThawAccountIdentity()
    ensures ThawAccountOp().opType == TypeAt(10) && ThawAccountOp().id == TypeName(TypeAt(10))
    ensures ThawAccountOp().command == ThawAccountCommand()
  {
  }

  lemma ThawAccountDefaults()
    ensures var ps := ThawAccountOp().parameters; forall i :: 0 <= i < |ps| ==> DefaultConsistent(ps[i])
  {
  }

  /** `thaw-account` passes the entry checks at position 10. */
  lemma CheckThawAccount()
    ensures EntryChecks(ThawAccountOp(), 10)
  {
    ThawAccountWellFormed();
    ThawAccountPlaceholders();
    ThawAccountDeclared();
    ThawAccountNameChecks();
    ThawAccountDefaults();
    ThawAccountIdentity();
    ThawAccountStartsWithCli();
    EntryFromParts(ThawAccountOp(), 10, ThawAccountCommand(), ["account-address", "authority"], ["account-address", "authority"]);
  }

  lemma ThawAccountInCatalog()
    ensures TokenOperations()[10] == ThawAccountOp()
  {
  }

  lemma CheckedAt10()
    ensures EntryChecks(TokenOperations()[10], 10)
  {
    CheckThawAccount();
    ThawAccountInCatalog();
  }


  lemma BalanceWellFormed()
    ensures WellFormed(BalanceCommand())
  {
    BalanceHeadHasNoBrace();
    AccountAddressNameIsBraceFree();
  }

  lemma BalancePlaceholders()
    ensures Names(BalanceCommand()) == ["account-address"]
  {
  }

  lemma BalanceDeclared()
    ensures ParamNames(BalanceOp().parameters) == ["account-address"]
  {
  }

  lemma BalanceNameChecks()
    ensures NameChecks(["account-address"], ["account-address"])
  {
    AccountAddressNameIsBraceFree();
  }

  lemma BalanceStartsWithCli()
    ensures StartsWithCli(BalanceCommand())
  {
  }

  lemma BalanceIdentity()
    ensures BalanceOp().opType == TypeAt(11) && BalanceOp().id == TypeName(TypeAt(11))
    ensures BalanceOp().command == BalanceCommand()
  {
  }

  lemma BalanceDefaults()
    ensures var ps := BalanceOp().parameters; forall i :: 0 <= i < |ps| ==> DefaultConsistent(ps[i])
  {
  }

  /** `balance` passes the entry checks at position 11. */
  lemma CheckBalance()
    ensures EntryChecks(BalanceOp(), 11)
  {
    BalanceWellFormed();
    BalancePlaceholders();
    BalanceDeclared();
    BalanceNameChecks();
    BalanceDefaults();
    BalanceIdentity();
    BalanceStartsWithCli();
    EntryFromParts(BalanceOp(), 11, BalanceCommand(), ["account-address"], ["account-address"]);
  }

  lemma BalanceInCatalog()
    ensures TokenOperations()[11] == BalanceOp()
  {
  }

  lemma CheckedAt11()
    ensures EntryChecks(TokenOperations()[11], 11)
  {
    CheckBalance();
    BalanceInCatalog();
  }


  lemma SupplyWellFormed()
    ensures WellFormed(SupplyCommand())
  {
    SupplyHeadHasNoBrace();
    MintAddressNameIsBraceFree();
  }

  lemma SupplyPlaceholders()
    ensures Names(SupplyCommand()) == ["mint-address"]
  {
  }

  lemma SupplyDeclared()
    ensures ParamNames(SupplyOp().parameters) == ["mint-address"]
  {
  }

  lemma SupplyNameChecks()
    ensures NameChecks(["mint-address"], ["mint-address"])
  {
    MintAddressNameIsBraceFree();
  }

  lemma SupplyStartsWithCli()
    ensures StartsWithCli(SupplyCommand())
  {
  }

  lemma SupplyIdentity()
    ensures SupplyOp().opType == TypeAt(12) && SupplyOp().id == TypeName(TypeAt(12))
    ensures SupplyOp().command == SupplyCommand()
  {
  }

  lemma SupplyDefaults()
    ensures var ps := SupplyOp().parameters; forall i :: 0 <= i < |ps| ==> DefaultConsistent(ps[i])
  {
  }

  /** `supply` passes the entry checks at position 12. */
  lemma CheckSupply()
    ensures EntryChecks(SupplyOp(), 12)
  {
    SupplyWellFormed();
    SupplyPlaceholders();
    SupplyDeclared();
    SupplyNameChecks();
    SupplyDefaults();
    SupplyIdentity();
    SupplyStartsWithCli();
    EntryFromParts(SupplyOp(), 12, SupplyCommand(), ["mint-address"], ["mint-address"]);
  }

  lemma SupplyInCatalog()
    ensures TokenOperations()[12] == SupplyOp()
  {
  }

  lemma CheckedAt12()
    ensures EntryChecks(TokenOperations()[12], 12)
  {
    CheckSupply();
    SupplyInCatalog();
  }


  lemma AccountsWellFormed()
    ensures WellFormed(AccountsCommand())
  {
    AccountsHeadHasNoBrace();
    MintAddressNameIsBraceFree();
  }

  lemma AccountsPlaceholders()
    ensures Names(AccountsCommand()) == ["mint-address"]
  {
  }

  lemma AccountsDeclared()
    ensures ParamNames(AccountsOp().parameters) == ["mint-address"]
  {
  }

  lemma AccountsNameChecks()
    ensures NameChecks(["mint-address"], ["mint-address"])
  {
    MintAddressNameIsBraceFree();
  }

  lemma AccountsStartsWithCli()
    ensures StartsWithCli(AccountsCommand())
  {
  }

  lemma AccountsIdentity()
    ensures AccountsOp().opType == TypeAt(13) && AccountsOp().id == TypeName(TypeAt(13))
    ensures AccountsOp().command == AccountsCommand()
  {
  }

  lemma AccountsDefaults()
    ensures var ps := AccountsOp().parameters; forall i :: 0 <= i < |ps| ==> DefaultConsistent(ps[i])
  {
  }

  /** `accounts` passes the entry checks at position 13. */
  lemma CheckAccounts()
    ensures EntryChecks(AccountsOp(), 13)
  {
    AccountsWellFormed();
    AccountsPlaceholders();
    AccountsDeclared();
    AccountsNameChecks();
    AccountsDefaults();
    AccountsIdentity();
    AccountsStartsWithCli();
    EntryFromParts(AccountsOp(), 13, AccountsCommand(), ["mint-address"], ["mint-address"]);
  }

  lemma AccountsInCatalog()
    ensures TokenOperations()[13] == AccountsOp()
  {
  }

  lemma CheckedAt13()
    ensures EntryChecks(TokenOperations()[13], 13)
  {
    CheckAccounts();
    AccountsInCatalog();
  }


  lemma MintsWellFormed()
    ensures WellFormed(MintsCommand())
  {
    MintsHeadHasNoBrace();
  }

  lemma MintsPlaceholders()
    ensures Names(MintsCommand()) == []
  {
  }

  lemma MintsDeclared()
    ensures ParamNames(MintsOp().parameters) == []
  {
  }

  lemma MintsNameChecks()
    ensures NameChecks([], [])
  {

  }

  lemma MintsStartsWithCli()
    ensures StartsWithCli(MintsCommand())
  {
  }

  lemma MintsIdentity()
    ensures MintsOp().opType == TypeAt(14) && MintsOp().id == TypeName(TypeAt(14))
    ensures MintsOp().command == MintsCommand()
  {
  }

  lemma MintsDefaults()
    ensures var ps := MintsOp().parameters; forall i :: 0 <= i < |ps| ==> DefaultConsistent(ps[i])
  {
  }

  /** `mints` passes the entry checks at position 14. */
  lemma CheckMints()
    ensures EntryChecks(MintsOp(), 14)
  {
    MintsWellFormed();
    MintsPlaceholders();
    MintsDeclared();
    MintsNameChecks();
    MintsDefaults();
    MintsIdentity();
    MintsStartsWithCli();
    EntryFromParts(MintsOp(), 14, MintsCommand(), [], []);
  }

  lemma MintsInCatalog()
    ensures TokenOperations()[14] == MintsOp()
  {
  }

  lemma CheckedAt14()
    ensures EntryChecks(TokenOperations()[14], 14)
  {
    CheckMints();
    MintsInCatalog();
  }


  lemma AmountToUiWellFormed()
    ensures WellFormed(AmountToUiCommand())
  {
    AmountToUiHeadHasNoBrace();
    SpaceHasNoBrace();
    MintAddressNameIsBraceFree();
    AmountNameIsBraceFree();
  }

  lemma AmountToUiPlaceholders()
    ensures Names(AmountToUiCommand()) == ["mint-address", "amount"]
  {
  }

  lemma AmountToUiDeclared()
    ensures ParamNames(AmountToUiOp().parameters) == ["mint-address", "amount"]
  {
  }

  lemma AmountToUiNameChecks()
    ensures NameChecks(["mint-address", "amount"], ["mint-address", "amount"])
  {
    MintAddressNameIsBraceFree();
    AmountNameIsBraceFree();
  }

  lemma AmountToUiStartsWithCli()
    ensures StartsWithCli(AmountToUiCommand())
  {
  }

  lemma AmountToUiIdentity()
    ensures AmountToUiOp().opType == TypeAt(15) && AmountToUiOp().id == TypeName(TypeAt(15))
    ensures AmountToUiOp().command == AmountToUiCommand()
  {
  }

  lemma AmountToUiDefaults()
    ensures var ps := AmountToUiOp().parameters; forall i :: 0 <= i < |ps| ==> DefaultConsistent(ps[i])
  {
  }

  /** `amount-to-ui` passes the entry checks at position 15. */
  lemma CheckAmountToUi()
    ensures EntryChecks(AmountToUiOp(), 15)
  {
    AmountToUiWellFormed();
    AmountToUiPlaceholders();
    AmountToUiDeclared();
    AmountToUiNameChecks();
    AmountToUiDefaults();
    AmountToUiIdentity();
    AmountToUiStartsWithCli();
    EntryFromParts(AmountToUiOp(), 15, AmountToUiCommand(), ["mint-address", "amount"], ["mint-address", "amount"]);
  }

  lemma AmountToUiInCatalog()
    ensures TokenOperations()[15] == AmountToUiOp()
  {
  }

  lemma CheckedAt15()
    ensures EntryChecks(TokenOperations()[15], 15)
  {
    CheckAmountToUi();
    AmountToUiInCatalog();
  }


  lemma UiToAmountWellFormed()
    ensures WellFormed(UiToAmountCommand())
  {
    UiToAmountHeadHasNoBrace();
    SpaceHasNoBrace();
    MintAddressNameIsBraceFree();
    UiAmountNameIsBraceFree();
  }

  lemma UiToAmountPlaceholders()
    ensures Names(UiToAmountCommand()) == ["mint-address", "ui-amount"]
  {
  }

  lemma UiToAmountDeclared()
    ensures ParamNames(UiToAmountOp().parameters) == ["mint-address", "ui-amount"]
  {
  }

  lemma UiToAmountNameChecks()
    ensures NameChecks(["mint-address", "ui-amount"], ["mint-address", "ui-amount"])
  {
    MintAddressNameIsBraceFree();
    UiAmountNameIsBraceFree();
  }

  lemma UiToAmountStartsWithCli()
    ensures StartsWithCli(UiToAmountCommand())
  {
  }

  lemma UiToAmountIdentity()
    ensures UiToAmountOp().opType == TypeAt(16) && UiToAmountOp().id == TypeName(TypeAt(16))
    ensures UiToAmountOp().command == UiToAmountCommand()
  {
  }

  lemma UiToAmountDefaults()
    ensures var ps := UiToAmountOp().parameters; forall i :: 0 <= i < |ps| ==> DefaultConsistent(ps[i])
  {
  }

  /** `ui-to-amount` passes the entry checks at position 16. */
  lemma CheckUiToAmount()
    ensures EntryChecks(UiToAmountOp(), 16)
  {
    UiToAmountWellFormed();
    UiToAmountPlaceholders();
    UiToAmountDeclared();
    UiToAmountNameChecks();
    UiToAmountDefaults();
    UiToAmountIdentity();
    UiToAmountStartsWithCli();
    EntryFromParts(UiToAmountOp(), 16, UiToAmountCommand(), ["mint-address", "ui-amount"], ["mint-address", "ui-amount"]);
  }

  lemma UiToAmountInCatalog()
    ensures TokenOperations()[16] == UiToAmountOp()
  {
  }

  lemma CheckedAt16()
    ensures EntryChecks(TokenOperations()[16], 16)
  {
    CheckUiToAmount();
    UiToAmountInCatalog();
  }


  lemma TransferCheckedWellFormed()
    ensures WellFormed(TransferCheckedCommand())
  {
    TransferCheckedHeadHasNoBrace();
    SpaceHasNoBrace();
    SpaceHasNoBrace();
    SpaceHasNoBrace();
    OwnerFlagHasNoBrace();
    SourceAccountNameIsBraceFree();
    DestinationAccountNameIsBraceFree();
    AmountNameIsBraceFree();
    DecimalsNameIsBraceFree();
    OwnerNameIsBraceFree();
  }

  lemma TransferCheckedPlaceholders()
    ensures Names(TransferCheckedCommand()) == ["source-account", "destination-account", "amount", "decimals", "owner"]
  {
  }

  lemma TransferCheckedDeclared()
    ensures ParamNames(TransferCheckedOp().parameters) == ["source-account", "destination-account", "amount", "decimals", "owner"]
  {
  }

  lemma TransferCheckedNameChecks()
    ensures NameChecks(["source-account", "destination-account", "amount", "decimals", "owner"], ["source-account", "destination-account", "amount", "decimals", "owner"])
  {
    SourceAccountNameIsBraceFree();
    DestinationAccountNameIsBraceFree();
    AmountNameIsBraceFree();
    DecimalsNameIsBraceFree();
    OwnerNameIsBraceFree();
  }

  lemma TransferCheckedStartsWithCli()
    ensures StartsWithCli(TransferCheckedCommand())
  {
  }

  lemma TransferCheckedIdentity()
    ensures TransferCheckedOp().opType == TypeAt(17) && TransferCheckedOp().id == TypeName(TypeAt(17))
    ensures TransferCheckedOp().command == TransferCheckedCommand()
  {
  }

  lemma TransferCheckedDefaults()
    ensures var ps := TransferCheckedOp().parameters; forall i :: 0 <= i < |ps| ==> DefaultConsistent(ps[i])
  {
  }

  /** `transfer-checked` passes the entry checks at position 17. */
  lemma CheckTransferChecked()
    ensures EntryChecks(TransferCheckedOp(), 17)
  {
    TransferCheckedWellFormed();
    TransferCheckedPlaceholders();
    TransferCheckedDeclared();
    TransferCheckedNameChecks();
    TransferCheckedDefaults();
    TransferCheckedIdentity();
    TransferCheckedStartsWithCli();
    EntryFromParts(TransferCheckedOp(), 17, TransferCheckedCommand(), ["source-account", "destination-account", "amount", "decimals", "owner"], ["source-account", "destination-account", "amount", "decimals", "owner"]);
  }

  lemma TransferCheckedInCatalog()
    ensures TokenOperations()[17] == TransferCheckedOp()
  {
  }

  lemma CheckedAt17()
    ensures EntryChecks(TokenOperations()[17], 17)
  {
    CheckTransferChecked();
    TransferCheckedInCatalog();
  }


  lemma ApproveCheckedWellFormed()
    ensures WellFormed(ApproveCheckedCommand())
  {
    ApproveCheckedHeadHasNoBrace();
    SpaceHasNoBrace();
    SpaceHasNoBrace();
    SpaceHasNoBrace();
    OwnerFlagHasNoBrace();
    AccountAddressNameIsBraceFree();
    DelegateAddressNameIsBraceFree();
    AmountNameIsBraceFree();
    DecimalsNameIsBraceFree();
    OwnerNameIsBraceFree();
  }

  lemma ApproveCheckedPlaceholders()
    ensures Names(ApproveCheckedCommand()) == ["account-address", "delegate-address", "amount", "decimals", "owner"]
  {
  }

  lemma ApproveCheckedDeclared()
    ensures ParamNames(ApproveCheckedOp().parameters) == ["account-address", "delegate-address", "amount", "decimals", "owner"]
  {
  }

  lemma ApproveCheckedNameChecks()
    ensures NameChecks(["account-address", "delegate-address", "amount", "decimals", "owner"], ["account-address", "delegate-address", "amount", "decimals", "owner"])
  {
    AccountAddressNameIsBraceFree();
    DelegateAddressNameIsBraceFree();
    AmountNameIsBraceFree();
    DecimalsNameIsBraceFree();
    OwnerNameIsBraceFree();
  }

  lemma ApproveCheckedStartsWithCli()
    ensures StartsWithCli(ApproveCheckedCommand())
  {
  }

  lemma ApproveCheckedIdentity()
    ensures ApproveCheckedOp().opType == TypeAt(18) && ApproveCheckedOp().id == TypeName(TypeAt(18))
    ensures ApproveCheckedOp().command == ApproveCheckedCommand()
  {
  }

  lemma ApproveCheckedDefaults()
    ensures var ps := ApproveCheckedOp().parameters; forall i :: 0 <= i < |ps| ==> DefaultConsistent(ps[i])
  {
  }

  /** `approve-checked` passes the entry checks at position 18. */
  lemma CheckApproveChecked()
    ensures EntryChecks(ApproveCheckedOp(), 18)
  {
    ApproveCheckedWellFormed();
    ApproveCheckedPlaceholders();
    ApproveCheckedDeclared();
    ApproveCheckedNameChecks();
    ApproveCheckedDefaults();
    ApproveCheckedIdentity();
    ApproveCheckedStartsWithCli();
    EntryFromParts(ApproveCheckedOp(), 18, ApproveCheckedCommand(), ["account-address", "delegate-address", "amount", "decimals", "owner"], ["account-address", "delegate-address", "amount", "decimals", "owner"]);
  }

  lemma ApproveCheckedInCatalog()
    ensures TokenOperations()[18] == ApproveCheckedOp()
  {
  }

  lemma CheckedAt18()
    ensures EntryChecks(TokenOperations()[18], 18)
  {
    CheckApproveChecked();
    ApproveCheckedInCatalog();
  }


  lemma MintToCheckedWellFormed()
    ensures WellFormed(MintToCheckedCommand())
  {
    MintToCheckedHeadHasNoBrace();
    SpaceHasNoBrace();
    SpaceHasNoBrace();
    SpaceHasNoBrace();
    AuthorityFlagHasNoBrace();
    MintAddressNameIsBraceFree();
    AccountAddressNameIsBraceFree();
    AmountNameIsBraceFree();
    DecimalsNameIsBraceFree();
    AuthorityNameIsBraceFree();
  }

  lemma MintToCheckedPlaceholders()
    ensures Names(MintToCheckedCommand()) == ["mint-address", "account-address", "amount", "decimals", "authority"]
  {
  }

  lemma MintToCheckedDeclared()
    ensures ParamNames(MintToCheckedOp().parameters) == ["mint-address", "account-address", "amount", "decimals", "authority"]
  {
  }

  lemma MintToCheckedNameChecks()
    ensures NameChecks(["mint-address", "account-address", "amount", "decimals", "authority"], ["mint-address", "account-address", "amount", "decimals", "authority"])
  {
    MintAddressNameIsBraceFree();
    AccountAddressNameIsBraceFree();
    AmountNameIsBraceFree();
    DecimalsNameIsBraceFree();
    AuthorityNameIsBraceFree();
  }

  lemma MintToCheckedStartsWithCli()
    ensures StartsWithCli(MintToCheckedCommand())
  {
  }

  lemma MintToCheckedIdentity()
    ensures MintToCheckedOp().opType == TypeAt(19) && MintToCheckedOp().id == TypeName(TypeAt(19))
    ensures MintToCheckedOp().command == MintToCheckedCommand()
  {
  }

  lemma MintToCheckedDefaults()
    ensures var ps := MintToCheckedOp().parameters; forall i :: 0 <= i < |ps| ==> DefaultConsistent(ps[i])
  {
  }

  /** `mint-to-checked` passes the entry checks at position 19. */
  lemma CheckMintToChecked()
    ensures EntryChecks(MintToCheckedOp(), 19)
  {
    MintToCheckedWellFormed();
    MintToCheckedPlaceholders();
    MintToCheckedDeclared();
    MintToCheckedNameChecks();
    MintToCheckedDefaults();
    MintToCheckedIdentity();
    MintToCheckedStartsWithCli();
    EntryFromParts(MintToCheckedOp(), 19, MintToCheckedCommand(), ["mint-address", "account-address", "amount", "decimals", "authority"], ["mint-address", "account-address", "amount", "decimals", "authority"]);
  }

  lemma MintToCheckedInCatalog()
    ensures TokenOperations()[19] == MintToCheckedOp()
  {
  }

  lemma CheckedAt19()
    ensures EntryChecks(TokenOperations()[19], 19)
  {
    CheckMintToChecked();
    MintToCheckedInCatalog();
  }


  lemma BurnCheckedWellFormed()
    ensures WellFormed(BurnCheckedCommand())
  {
    BurnCheckedHeadHasNoBrace();
    SpaceHasNoBrace();
    SpaceHasNoBrace();
    OwnerFlagHasNoBrace();
    AccountAddressNameIsBraceFree();
    AmountNameIsBraceFree();
    DecimalsNameIsBraceFree();
    OwnerNameIsBraceFree();
  }

  lemma BurnCheckedPlaceholders()
    ensures Names(BurnCheckedCommand()) == ["account-address", "amount", "decimals", "owner"]
  {
  }

  lemma BurnCheckedDeclared()
    ensures ParamNames(BurnCheckedOp().parameters) == ["account-address", "amount", "decimals", "owner"]
  {
  }

  lemma BurnCheckedNameChecks()
    ensures NameChecks(["account-address", "amount", "decimals", "owner"], ["account-address", "amount", "decimals", "owner"])
  {
    AccountAddressNameIsBraceFree();
    AmountNameIsBraceFree();
    DecimalsNameIsBraceFree();
    OwnerNameIsBraceFree();
  }

  lemma BurnCheckedStartsWithCli()
    ensures StartsWithCli(BurnCheckedCommand())
  {
  }

  lemma BurnCheckedIdentity()
    ensures BurnCheckedOp().opType == TypeAt(20) && BurnCheckedOp().id == TypeName(TypeAt(20))
    ensures BurnCheckedOp().command == BurnCheckedCommand()
  {
  }

  lemma BurnCheckedDefaults()
    ensures var ps := BurnCheckedOp().parameters; forall i :: 0 <= i < |ps| ==> DefaultConsistent(ps[i])
  {
  }

  /** `burn-checked` passes the entry checks at position 20. */
  lemma CheckBurnChecked()
    ensures EntryChecks(BurnCheckedOp(), 20)
  {
    BurnCheckedWellFormed();
    BurnCheckedPlaceholders();
    BurnCheckedDeclared();
    BurnCheckedNameChecks();
    BurnCheckedDefaults();
    BurnCheckedIdentity();
    BurnCheckedStartsWithCli();
    EntryFromParts(BurnCheckedOp(), 20, BurnCheckedCommand(), ["account-address", "amount", "decimals", "owner"], ["account-address", "amount", "decimals", "owner"]);
  }

  lemma BurnCheckedInCatalog()
    ensures TokenOperations()[20] == BurnCheckedOp()
  {
  }

  lemma CheckedAt20()
    ensures EntryChecks(TokenOperations()[20], 20)
  {
    CheckBurnChecked();
    BurnCheckedInCatalog();
  }


  lemma SetAuthorityWellFormed()
    ensures WellFormed(SetAuthorityCommand())
  {
    SetAuthorityHeadHasNoBrace();
    AuthorityTypeFlagHasNoBrace();
    NewAuthorityFlagHasNoBrace();
    CurrentAuthorityFlagHasNoBrace();
    TargetAddressNameIsBraceFree();
    AuthorityTypeNameIsBraceFree();
    NewAuthorityNameIsBraceFree();
    CurrentAuthorityNameIsBraceFree();
  }

  lemma SetAuthorityPlaceholders()
    ensures Names(SetAuthorityCommand()) == ["target-address", "authority-type", "new-authority", "current-authority"]
  {
  }

  lemma SetAuthorityDeclared()
    ensures ParamNames(SetAuthorityOp().parameters) == ["target-address", "authority-type", "new-authority", "current-authority"]
  {
  }

  lemma SetAuthorityNameChecks()
    ensures NameChecks(["target-address", "authority-type", "new-authority", "current-authority"], ["target-address", "authority-type", "new-authority", "current-authority"])
  {
    TargetAddressNameIsBraceFree();
    AuthorityTypeNameIsBraceFree();
    NewAuthorityNameIsBraceFree();
    CurrentAuthorityNameIsBraceFree();
  }

  lemma SetAuthorityStartsWithCli()
    ensures StartsWithCli(SetAuthorityCommand())
  {
  }

  lemma SetAuthorityIdentity()
    ensures SetAuthorityOp().opType == TypeAt(21) && SetAuthorityOp().id == TypeName(TypeAt(21))
    ensures SetAuthorityOp().command == SetAuthorityCommand()
  {
  }

  lemma SetAuthorityDefaults()
    ensures var ps := SetAuthorityOp().parameters; forall i :: 0 <= i < |ps| ==> DefaultConsistent(ps[i])
  {
  }

  /** `set-authority` passes the entry checks at position 21. */
  lemma CheckSetAuthority()
    ensures EntryChecks(SetAuthorityOp(), 21)
  {
    SetAuthorityWellFormed();
    SetAuthorityPlaceholders();
    SetAuthorityDeclared();
    SetAuthorityNameChecks();
    SetAuthorityDefaults();
    SetAuthorityIdentity();
    SetAuthorityStartsWithCli();
    EntryFromParts(SetAuthorityOp(), 21, SetAuthorityCommand(), ["target-address", "authority-type", "new-authority", "current-authority"], ["target-address", "authority-type", "new-authority", "current-authority"]);
  }

  lemma SetAuthorityInCatalog()
    ensures TokenOperations()[21] == SetAuthorityOp()
  {
  }

  lemma CheckedAt21()
    ensures EntryChecks(TokenOperations()[21], 21)
  {
    CheckSetAuthority();
    SetAuthorityInCatalog();
  }


  lemma CloseAccountWellFormed()
    ensures WellFormed(CloseAccountCommand())
  {
    CloseAccountHeadHasNoBrace();
    SpaceHasNoBrace();
    OwnerFlagHasNoBrace();
    AccountAddressNameIsBraceFree();
    DestinationAddressNameIsBraceFree();
    OwnerNameIsBraceFree();
  }

  lemma CloseAccountPlaceholders()
    ensures Names(CloseAccountCommand()) == ["account-address", "destination-address", "owner"]
  {
  }

  lemma CloseAccountDeclared()
    ensures ParamNames(CloseAccountOp().parameters) == ["account-address", "destination-address", "owner"]
  {
  }

  lemma CloseAccountNameChecks()
    ensures NameChecks(["account-address", "destination-address", "owner"], ["account-address", "destination-address", "owner"])
  {
    AccountAddressNameIsBraceFree();
    DestinationAddressNameIsBraceFree();
    OwnerNameIsBraceFree();
  }

  lemma CloseAccountStartsWithCli()
    ensures StartsWithCli(CloseAccountCommand())
  {
  }

  lemma CloseAccountIdentity()
    ensures CloseAccountOp().opType == TypeAt(22) && CloseAccountOp().id == TypeName(TypeAt(22))
    ensures CloseAccountOp().command == CloseAccountCommand()
  {
  }

  lemma CloseAccountDefaults()
    ensures var ps := CloseAccountOp().parameters; forall i :: 0 <= i < |ps| ==> DefaultConsistent(ps[i])
  {
  }

  /** `close-account` passes the entry checks at position 22. */
  lemma CheckCloseAccount()
    ensures EntryChecks(CloseAccountOp(), 22)
  {
    CloseAccountWellFormed();
    CloseAccountPlaceholders();
    CloseAccountDeclared();
    CloseAccountNameChecks();
    CloseAccountDefaults();
    CloseAccountIdentity();
    CloseAccountStartsWithCli();
    EntryFromParts(CloseAccountOp(), 22, CloseAccountCommand(), ["account-address", "destination-address", "owner"], ["account-address", "destination-address", "owner"]);
  }

  lemma CloseAccountInCatalog()
    ensures TokenOperations()[22] == CloseAccountOp()
  {
  }

  lemma CheckedAt22()
    ensures EntryChecks(TokenOperations()[22], 22)
  {
    CheckCloseAccount();
    CloseAccountInCatalog();
  }


  lemma CreateMultisigWellFormed()
    ensures WellFormed(CreateMultisigCommand())
  {
    CreateMultisigHeadHasNoBrace();
    SignersFlagHasNoBrace();
    KeypairPathFlagHasNoBrace();
    MNameIsBraceFree();
    SignersNameIsBraceFree();
    KeypairPathNameIsBraceFree();
  }

  lemma CreateMultisigPlaceholders()
    ensures Names(CreateMultisigCommand()) == ["m", "signers", "keypair-path"]
  {
  }

  lemma CreateMultisigDeclared()
    ensures ParamNames(CreateMultisigOp().parameters) == ["m", "signers", "keypair-path"]
  {
  }

  lemma CreateMultisigNameChecks()
    ensures NameChecks(["m", "signers", "keypair-path"], ["m", "signers", "keypair-path"])
  {
    MNameIsBraceFree();
    SignersNameIsBraceFree();
    KeypairPathNameIsBraceFree();
  }

  lemma CreateMultisigStartsWithCli()
    ensures StartsWithCli(CreateMultisigCommand())
  {
  }

  lemma CreateMultisigIdentity()
    ensures CreateMultisigOp().opType == TypeAt(23) && CreateMultisigOp().id == TypeName(TypeAt(23))
    ensures CreateMultisigOp().command == CreateMultisigCommand()
  {
  }

  lemma CreateMultisigDefaults()
    ensures var ps := CreateMultisigOp().parameters; forall i :: 0 <= i < |ps| ==> DefaultConsistent(ps[i])
  {
  }

  /** `create-multisig` passes the entry checks at position 23. */
  lemma CheckCreateMultisig()
    ensures EntryChecks(CreateMultisigOp(), 23)
  {
    CreateMultisigWellFormed();
    CreateMultisigPlaceholders();
    CreateMultisigDeclared();
    CreateMultisigNameChecks();
    CreateMultisigDefaults();
    CreateMultisigIdentity();
    CreateMultisigStartsWithCli();
    EntryFromParts(CreateMultisigOp(), 23, CreateMultisigCommand(), ["m", "signers", "keypair-path"], ["m", "signers", "keypair-path"]);
  }

  lemma CreateMultisigInCatalog()
    ensures TokenOperations()[23] == CreateMultisigOp()
  {
  }

  lemma CheckedAt23()
    ensures EntryChecks(TokenOperations()[23], 23)
  {
    CheckCreateMultisig();
    CreateMultisigInCatalog();
  }


  lemma MultisigSignWellFormed()
    ensures WellFormed(MultisigSignCommand())
  {
    MultisigSignHeadHasNoBrace();
    SpaceHasNoBrace();
    KeypairPathFlagHasNoBrace();
    MultisigAddressNameIsBraceFree();
    TransactionNameIsBraceFree();
    KeypairPathNameIsBraceFree();
  }

  lemma MultisigSignPlaceholders()
    ensures Names(MultisigSignCommand()) == ["multisig-address", "transaction", "keypair-path"]
  {
  }

  lemma MultisigSignDeclared()
    ensures ParamNames(MultisigSignOp().parameters) == ["multisig-address", "transaction", "keypair-path"]
  {
  }

  lemma MultisigSignNameChecks()
    ensures NameChecks(["multisig-address", "transaction", "keypair-path"], ["multisig-address", "transaction", "keypair-path"])
  {
    MultisigAddressNameIsBraceFree();
    TransactionNameIsBraceFree();
    KeypairPathNameIsBraceFree();
  }

  lemma MultisigSignStartsWithCli()
    ensures StartsWithCli(MultisigSignCommand())
  {
  }

  lemma MultisigSignIdentity()
    ensures MultisigSignOp().opType == TypeAt(24) && MultisigSignOp().id == TypeName(TypeAt(24))
    ensures MultisigSignOp().command == MultisigSignCommand()
  {
  }

  lemma MultisigSignDefaults()
    ensures var ps := MultisigSignOp().parameters; forall i :: 0 <= i < |ps| ==> DefaultConsistent(ps[i])
  {
  }

  /** `multisig-sign` passes the entry checks at position 24. */
  lemma CheckMultisigSign()
    ensures EntryChecks(MultisigSignOp(), 24)
  {
    MultisigSignWellFormed();
    MultisigSignPlaceholders();
    MultisigSignDeclared();
    MultisigSignNameChecks();
    MultisigSignDefaults();
    MultisigSignIdentity();
    MultisigSignStartsWithCli();
    EntryFromParts(MultisigSignOp(), 24, MultisigSignCommand(), ["multisig-address", "transaction", "keypair-path"], ["multisig-address", "transaction", "keypair-path"]);
  }

  lemma MultisigSignInCatalog()
    ensures TokenOperations()[24] == MultisigSignOp()
  {
  }

  lemma CheckedAt24()
    ensures EntryChecks(TokenOperations()[24], 24)
  {
    CheckMultisigSign();
    MultisigSignInCatalog();
  }


  lemma MultisigExecuteWellFormed()
    ensures WellFormed(MultisigExecuteCommand())
  {
    MultisigExecuteHeadHasNoBrace();
    SpaceHasNoBrace();
    SignersFlagHasNoBrace();
    KeypairPathFlagHasNoBrace();
    MultisigAddressNameIsBraceFree();
    TransactionNameIsBraceFree();
    SignersNameIsBraceFree();
    KeypairPathNameIsBraceFree();
  }

  lemma MultisigExecutePlaceholders()
    ensures Names(MultisigExecuteCommand()) == ["multisig-address", "transaction", "signers", "keypair-path"]
  {
  }

  lemma MultisigExecuteDeclared()
    ensures ParamNames(MultisigExecuteOp().parameters) == ["multisig-address", "transaction", "signers", "keypair-path"]
  {
  }

  lemma MultisigExecuteNameChecks()
    ensures NameChecks(["multisig-address", "transaction", "signers", "keypair-path"], ["multisig-address", "transaction", "signers", "keypair-path"])
  {
    MultisigAddressNameIsBraceFree();
    TransactionNameIsBraceFree();
    SignersNameIsBraceFree();
    KeypairPathNameIsBraceFree();
  }

  lemma MultisigExecuteStartsWithCli()
    ensures StartsWithCli(MultisigExecuteCommand())
  {
  }

  lemma MultisigExecuteIdentity()
    ensures MultisigExecuteOp().opType == TypeAt(25) && MultisigExecuteOp().id == TypeName(TypeAt(25))
    ensures MultisigExecuteOp().command == MultisigExecuteCommand()
  {
  }

  lemma MultisigExecuteDefaults()
    ensures var ps := MultisigExecuteOp().parameters; forall i :: 0 <= i < |ps| ==> DefaultConsistent(ps[i])
  {
  }

  /** `multisig-execute` passes the entry checks at position 25. */
  lemma CheckMultisigExecute()
    ensures EntryChecks(MultisigExecuteOp(), 25)
  {
    MultisigExecuteWellFormed();
    MultisigExecutePlaceholders();
    MultisigExecuteDeclared();
    MultisigExecuteNameChecks();
    MultisigExecuteDefaults();
    MultisigExecuteIdentity();
    MultisigExecuteStartsWithCli();
    EntryFromParts(MultisigExecuteOp(), 25, MultisigExecuteCommand(), ["multisig-address", "transaction", "signers", "keypair-path"], ["multisig-address", "transaction", "signers", "keypair-path"]);
  }

  lemma MultisigExecuteInCatalog()
    ensures TokenOperations()[25] == MultisigExecuteOp()
  {
  }

  lemma CheckedAt25()
    ensures EntryChecks(TokenOperations()[25], 25)
  {
    CheckMultisigExecute();
    MultisigExecuteInCatalog();
  }


  lemma MultisigShowWellFormed()
    ensures WellFormed(MultisigShowCommand())
  {
    MultisigShowHeadHasNoBrace();
    MultisigAddressNameIsBraceFree();
  }

  lemma MultisigShowPlaceholders()
    ensures Names(MultisigShowCommand()) == ["multisig-address"]
  {
  }

  lemma MultisigShowDeclared()
    ensures ParamNames(MultisigShowOp().parameters) == ["multisig-address"]
  {
  }

  lemma MultisigShowNameChecks()
    ensures NameChecks(["multisig-address"], ["multisig-address"])
  {
    MultisigAddressNameIsBraceFree();
  }

  lemma MultisigShowStartsWithCli()
    ensures StartsWithCli(MultisigShowCommand())
  {
  }

  lemma MultisigShowIdentity()
    ensures MultisigShowOp().opType == TypeAt(26) && MultisigShowOp().id == TypeName(TypeAt(26))
    ensures MultisigShowOp().command == MultisigShowCommand()
  {
  }

  lemma MultisigShowDefaults()
    ensures var ps := MultisigShowOp().parameters; forall i :: 0 <= i < |ps| ==> DefaultConsistent(ps[i])
  {
  }

  /** `multisig-show` passes the entry checks at position 26. */
  lemma CheckMultisigShow()
    ensures EntryChecks(MultisigShowOp(), 26)
  {
    MultisigShowWellFormed();
    MultisigShowPlaceholders();
    MultisigShowDeclared();
    MultisigShowNameChecks();
    MultisigShowDefaults();
    MultisigShowIdentity();
    MultisigShowStartsWithCli();
    EntryFromParts(MultisigShowOp(), 26, MultisigShowCommand(), ["multisig-address"], ["multisig-address"]);
  }

  lemma MultisigShowInCatalog()
    ensures TokenOperations()[26] == MultisigShowOp()
  {
  }

  lemma CheckedAt26()
    ensures EntryChecks(TokenOperations()[26], 26)
  {
    CheckMultisigShow();
    MultisigShowInCatalog();
  }


  lemma BatchTransferWellFormed()
    ensures WellFormed(BatchTransferCommand())
  {
    BatchTransferHeadHasNoBrace();
    KeypairPathFlagHasNoBrace();
    TransfersFileNameIsBraceFree();
    KeypairPathNameIsBraceFree();
  }

  lemma BatchTransferPlaceholders()
    ensures Names(BatchTransferCommand()) == ["transfers-file", "keypair-path"]
  {
  }

  lemma BatchTransferDeclared()
    ensures ParamNames(BatchTransferOp().parameters) == ["transfers-file", "keypair-path"]
  {
  }

  lemma BatchTransferNameChecks()
    ensures NameChecks(["transfers-file", "keypair-path"], ["transfers-file", "keypair-path"])
  {
    TransfersFileNameIsBraceFree();
    KeypairPathNameIsBraceFree();
  }

  lemma BatchTransferStartsWithCli()
    ensures StartsWithCli(BatchTransferCommand())
  {
  }

  lemma BatchTransferIdentity()
    ensures BatchTransferOp().opType == TypeAt(27) && BatchTransferOp().id == TypeName(TypeAt(27))
    ensures BatchTransferOp().command == BatchTransferCommand()
  {
  }

  lemma BatchTransferDefaults()
    ensures var ps := BatchTransferOp().parameters; forall i :: 0 <= i < |ps| ==> DefaultConsistent(ps[i])
  {
  }

  /** `batch-transfer` passes the entry checks at position 27. */
  lemma CheckBatchTransfer()
    ensures EntryChecks(BatchTransferOp(), 27)
  {
    BatchTransferWellFormed();
    BatchTransferPlaceholders();
    BatchTransferDeclared();
    BatchTransferNameChecks();
    BatchTransferDefaults();
    BatchTransferIdentity();
    BatchTransferStartsWithCli();
    EntryFromParts(BatchTransferOp(), 27, BatchTransferCommand(), ["transfers-file", "keypair-path"], ["transfers-file", "keypair-path"]);
  }

  lemma BatchTransferInCatalog()
    ensures TokenOperations()[27] == BatchTransferOp()
  {
  }

  lemma CheckedAt27()
    ensures EntryChecks(TokenOperations()[27], 27)
  {
    CheckBatchTransfer();
    BatchTransferInCatalog();
  }


  lemma BatchMintWellFormed()
    ensures WellFormed(BatchMintCommand())
  {
    BatchMintHeadHasNoBrace();
    KeypairPathFlagHasNoBrace();
    MintsFileNameIsBraceFree();
    KeypairPathNameIsBraceFree();
  }

  lemma BatchMintPlaceholders()
    ensures Names(BatchMintCommand()) == ["mints-file", "keypair-path"]
  {
  }

  lemma BatchMintDeclared()
    ensures ParamNames(BatchMintOp().parameters) == ["mints-file", "keypair-path"]
  {
  }

  lemma BatchMintNameChecks()
    ensures NameChecks(["mints-file", "keypair-path"], ["mints-file", "keypair-path"])
  {
    MintsFileNameIsBraceFree();
    KeypairPathNameIsBraceFree();
  }

  lemma BatchMintStartsWithCli()
    ensures StartsWithCli(BatchMintCommand())
  {
  }

  lemma BatchMintIdentity()
    ensures BatchMintOp().opType == TypeAt(28) && BatchMintOp().id == TypeName(TypeAt(28))
    ensures BatchMintOp().command == BatchMintCommand()
  {
  }

  lemma BatchMintDefaults()
    ensures var ps := BatchMintOp().parameters; forall i :: 0 <= i < |ps| ==> DefaultConsistent(ps[i])
  {
  }

  /** `batch-mint` passes the entry checks at position 28. */
  lemma CheckBatchMint()
    ensures EntryChecks(BatchMintOp(), 28)
  {
    BatchMintWellFormed();
    BatchMintPlaceholders();
    BatchMintDeclared();
    BatchMintNameChecks();
    BatchMintDefaults();
    BatchMintIdentity();
    BatchMintStartsWithCli();
    EntryFromParts(BatchMintOp(), 28, BatchMintCommand(), ["mints-file", "keypair-path"], ["mints-file", "keypair-path"]);
  }

  lemma BatchMintInCatalog()
    ensures TokenOperations()[28] == BatchMintOp()
  {
  }

  lemma CheckedAt28()
    ensures EntryChecks(TokenOperations()[28], 28)
  {
    CheckBatchMint();
    BatchMintInCatalog();
  }

  // ---------------------------------------------------------------------
  // The whole catalog
  // ---------------------------------------------------------------------

  /** `ops` has 29 entries, and every entry passes the entry checks at its own position. */
  predicate AllChecked(ops: seq<Operation>) {
    |ops| == 29 && forall k :: 0 <= k < |ops| ==> EntryChecks(ops[k], k)
  }

  /** A list of 29 entries each passing the checks at its own position passes them everywhere. */
  lemma EachChecked(ops: seq<Operation>)
    requires |ops| == 29
    requires EntryChecks(ops[0], 0)
    requires EntryChecks(ops[1], 1)
    requires EntryChecks(ops[2], 2)
    requires EntryChecks(ops[3], 3)
    requires EntryChecks(ops[4], 4)
    requires EntryChecks(ops[5], 5)
    requires EntryChecks(ops[6], 6)
    requires EntryChecks(ops[7], 7)
    requires EntryChecks(ops[8], 8)
    requires EntryChecks(ops[9], 9)
    requires EntryChecks(ops[10], 10)
    requires EntryChecks(ops[11], 11)
    requires EntryChecks(ops[12], 12)
    requires EntryChecks(ops[13], 13)
    requires EntryChecks(ops[14], 14)
    requires EntryChecks(ops[15], 15)
    requires EntryChecks(ops[16], 16)
    requires EntryChecks(ops[17], 17)
    requires EntryChecks(ops[18], 18)
    requires EntryChecks(ops[19], 19)
    requires EntryChecks(ops[20], 20)
    requires EntryChecks(ops[21], 21)
    requires EntryChecks(ops[22], 22)
    requires EntryChecks(ops[23], 23)
    requires EntryChecks(ops[24], 24)
    requires EntryChecks(ops[25], 25)
    requires EntryChecks(ops[26], 26)
    requires EntryChecks(ops[27], 27)
    requires EntryChecks(ops[28], 28)
    ensures AllChecked(ops)
  {
    forall k | 0 <= k < |ops| ensures EntryChecks(ops[k], k) {
      if k == 0 {
      } else if k == 1 {
      } else if k == 2 {
      } else if k == 3 {
      } else if k == 4 {
      } else if k == 5 {
      } else if k == 6 {
      } else if k == 7 {
      } else if k == 8 {
      } else if k == 9 {
      } else if k == 10 {
      } else if k == 11 {
      } else if k == 12 {
      } else if k == 13 {
      } else if k == 14 {
      } else if k == 15 {
      } else if k == 16 {
      } else if k == 17 {
      } else if k == 18 {
      } else if k == 19 {
      } else if k == 20 {
      } else if k == 21 {
      } else if k == 22 {
      } else if k == 23 {
      } else if k == 24 {
      } else if k == 25 {
      } else if k == 26 {
      } else if k == 27 {
      } else {
      }
    }
  }

  /** The catalog has 29 entries, and every entry passes the entry checks at its own position. */
  lemma CatalogChecked()
    ensures AllChecked(TokenOperations())
  {
    CheckedAt0();
    CheckedAt1();
    CheckedAt2();
    CheckedAt3();
    CheckedAt4();
    CheckedAt5();
    CheckedAt6();
    CheckedAt7();
    CheckedAt8();
    CheckedAt9();
    CheckedAt10();
    CheckedAt11();
    CheckedAt12();
    CheckedAt13();
    CheckedAt14();
    CheckedAt15();
    CheckedAt16();
    CheckedAt17();
    CheckedAt18();
    CheckedAt19();
    CheckedAt20();
    CheckedAt21();
    CheckedAt22();
    CheckedAt23();
    CheckedAt24();
    CheckedAt25();
    CheckedAt26();
    CheckedAt27();
    CheckedAt28();
    EachChecked(TokenOperations());
  }

  /** `TypeAt` and `CatalogIndex` are inverse: position to type and back. */
  lemma TypeAtIndex(k: nat)
    requires k < 29
    ensures CatalogIndex(TypeAt(k)) == k
  {
  }

  /** `CatalogIndex` and `TypeAt` are inverse: type to position and back. */
  lemma IndexTypeAt(t: OperationType)
    ensures CatalogIndex(t) < 29 && TypeAt(CatalogIndex(t)) == t
  {
  }

  /** Distinct positions hold entries of distinct operation types. */
  lemma CatalogIndexInjective(a: OperationType, b: OperationType)
    ensures CatalogIndex(a) < 29
    ensures CatalogIndex(a) == CatalogIndex(b) ==> a == b
  {
    IndexTypeAt(a);
    IndexTypeAt(b);
  }

  /** Each entry of `ops` has its type's literal as id and sits at its type's position. */
  predicate Identified(ops: seq<Operation>) {
    forall k :: 0 <= k < |ops| ==> ops[k].id == TypeName(ops[k].opType) && CatalogIndex(ops[k].opType) == k
  }

  /** The identity part of the entry checks. */
  lemma CheckedIdentified(ops: seq<Operation>)
    requires AllChecked(ops)
    ensures Identified(ops)
  {
    forall k | 0 <= k < |ops| ensures ops[k].id == TypeName(ops[k].opType) && CatalogIndex(ops[k].opType) == k {
      assert EntryChecks(ops[k], k);
      TypeAtIndex(k);
    }
  }

  /** The catalog has 29 entries, each with its type's literal as id, at its type's position. */
  lemma CatalogIdentity()
    ensures |TokenOperations()| == 29 && Identified(TokenOperations())
  {
    CatalogChecked();
    CheckedIdentified(TokenOperations());
  }

  /** In an identified list, all ids are distinct. */
  lemma IdsDistinctIn(ops: seq<Operation>)
    requires Identified(ops)
    ensures forall i, j :: 0 <= i < j < |ops| ==> ops[i].id != ops[j].id
  {
    forall i, j | 0 <= i < j < |ops| ensures ops[i].id != ops[j].id {
      TypeNameInjective(ops[i].opType, ops[j].opType);
    }
  }

  /** All 29 ids are distinct. */
  lemma IdsDistinct()
    ensures forall i, j :: 0 <= i < j < |TokenOperations()| ==> TokenOperations()[i].id != TokenOperations()[j].id
  {
    CatalogIdentity();
    IdsDistinctIn(TokenOperations());
  }

  /** In an identified list of 29, the entry of each operation type sits at its position, with that type. */
  lemma EntryOfTypeIn(ops: seq<Operation>, t: OperationType)
    requires |ops| == 29 && Identified(ops)
    ensures CatalogIndex(t) < |ops|
    ensures ops[CatalogIndex(t)].opType == t && ops[CatalogIndex(t)].id == TypeName(t)
  {
    var k := CatalogIndex(t);
    CatalogIndexInjective(t, t);
    CatalogIndexInjective(ops[k].opType, t);
  }

  /** The entry of each operation type sits at its position, with that type and its literal as id. */
  lemma EntryOfType(t: OperationType)
    ensures CatalogIndex(t) < |TokenOperations()|
    ensures TokenOperations()[CatalogIndex(t)].opType == t
    ensures TokenOperations()[CatalogIndex(t)].id == TypeName(t)
  {
    CatalogIdentity();
    EntryOfTypeIn(TokenOperations(), t);
  }

  // ---------------------------------------------------------------------
  // Lookups
  // ---------------------------------------------------------------------

  /** `ops.find(op => op.id === id)`: the first entry with that id, or None. */
  function FindOperation(ops: seq<Operation>, id: string): Option<Operation> {
    if |ops| == 0 then None
    else if ops[0].id == id then Some(ops[0])
    else FindOperation(ops[1..], id)
  }

  /** The search is `find` with the id test. */
  lemma {:induction false} FindOperationIsFind(ops: seq<Operation>, id: string)
    ensures FindOperation(ops, id) == Find(ops, (op: Operation) => op.id == id)
  {
    if |ops| > 0 && ops[0].id != id {
      FindOperationIsFind(ops[1..], id);
    }
  }

  /** `ops.filter(op => op.category === category)`. */
  function SelectCategory(ops: seq<Operation>, category: string): seq<Operation> {
    Filter(ops, (op: Operation) => CategoryName(op.category) == category)
  }

  /** `getOperationById(id)`: the first entry with that id, or None. */
  function GetOperationById(id: string): Option<Operation> {
    FindOperation(TokenOperations(), id)
  }

  /** `getOperationsByCategory(category)`: the entries of that category, in catalog order. */
  function GetOperationsByCategory(category: string): seq<Operation> {
    SelectCategory(TokenOperations(), category)
  }

  /** In an identified list of 29, looking up the id of an operation type finds that type's entry. */
  lemma FindOperationFinds(ops: seq<Operation>, t: OperationType)
    requires |ops| == 29 && Identified(ops)
    ensures CatalogIndex(t) < |ops|
    ensures FindOperation(ops, TypeName(t)) == Some(ops[CatalogIndex(t)])
    ensures ops[CatalogIndex(t)].opType == t
  {
    EntryOfTypeIn(ops, t);
    IdsDistinctIn(ops);
    FindOperationIsFind(ops, TypeName(t));
    FindFirst(ops, (op: Operation) => op.id == TypeName(t), CatalogIndex(t));
  }

  /** What the search finds is an entry of the list, with the id looked up. */
  lemma {:induction false} FoundInList(ops: seq<Operation>, id: string)
    ensures FindOperation(ops, id).Some? ==>
      FindOperation(ops, id).value in ops && FindOperation(ops, id).value.id == id
  {
    if |ops| > 0 && ops[0].id != id {
      FoundInList(ops[1..], id);
    }
  }

  /** Looking up the id of an operation type finds that type's entry. */
  lemma GetOperationByIdFinds(t: OperationType)
    ensures CatalogIndex(t) < |TokenOperations()|
    ensures GetOperationById(TypeName(t)) == Some(TokenOperations()[CatalogIndex(t)])
    ensures GetOperationById(TypeName(t)).value.opType == t
  {
    CatalogIdentity();
    FindOperationFinds(TokenOperations(), t);
  }

  /** In a checked list, each entry passes the entry checks at the position of its type. */
  lemma CheckedAtType(ops: seq<Operation>, k: nat)
    requires AllChecked(ops) && k < |ops|
    ensures EntryChecks(ops[k], CatalogIndex(ops[k].opType))
  {
    assert EntryChecks(ops[k], k);
    TypeAtIndex(k);
  }

  /** In a checked list, what a lookup finds passes the entry checks at the position of its type. */
  lemma FoundCheckedIn(ops: seq<Operation>, id: string)
    requires AllChecked(ops)
    ensures FindOperation(ops, id).Some? ==>
      EntryChecks(FindOperation(ops, id).value, CatalogIndex(FindOperation(ops, id).value.opType))
  {
    var r := FindOperation(ops, id);
    FoundInList(ops, id);
    if r.Some? {
      var k :| 0 <= k < |ops| && ops[k] == r.value;
      CheckedAtType(ops, k);
    }
  }

  /** What a lookup finds passes the entry checks. */
  lemma FoundEntryChecked(id: string)
    ensures GetOperationById(id).Some? ==>
      EntryChecks(GetOperationById(id).value, CatalogIndex(GetOperationById(id).value.opType))
  {
    CatalogChecked();
    FoundCheckedIn(TokenOperations(), id);
  }

  /** In an identified list, what a lookup finds carries the id looked up, the literal of its type. */
  lemma FoundNamesType(ops: seq<Operation>, id: string)
    requires Identified(ops)
    ensures FindOperation(ops, id).Some? ==>
      FindOperation(ops, id).value.id == id && TypeName(FindOperation(ops, id).value.opType) == id
  {
    var r := FindOperation(ops, id);
    FoundInList(ops, id);
    if r.Some? {
      var k :| 0 <= k < |ops| && ops[k] == r.value;
    }
  }

  /** In an identified list of 29, an id is found exactly when it is the literal of some operation type. */
  lemma FindOperationIff(ops: seq<Operation>, id: string)
    requires |ops| == 29 && Identified(ops)
    ensures FindOperation(ops, id).Some? <==> exists t :: TypeName(t) == id
    ensures FindOperation(ops, id).Some? ==> FindOperation(ops, id).value.id == id
  {
    var r := FindOperation(ops, id);
    if r.Some? {
      FoundNamesType(ops, id);
      assert TypeName(r.value.opType) == id;
    }
    if exists t :: TypeName(t) == id {
      var t :| TypeName(t) == id;
      FindOperationFinds(ops, t);
    }
  }

  /** An id is found exactly when it is the id of some operation type; what is found has that id. */
  lemma GetOperationByIdIff(id: string)
    ensures GetOperationById(id).Some? <==> exists t :: TypeName(t) == id
    ensures GetOperationById(id).Some? ==> GetOperationById(id).value.id == id
  {
    CatalogIdentity();
    FindOperationIff(TokenOperations(), id);
  }

  /** A list increasing by catalog position when each entry's position is its index. */
  lemma IndexedIncreasing(ops: seq<Operation>)
    requires forall k :: 0 <= k < |ops| ==> CatalogIndex(ops[k].opType) == k
    ensures IncreasingBy(ops, (op: Operation) => CatalogIndex(op.opType))
  {
  }

  /** `sel` holds entries of `ops` of the named category, and every such entry of `ops`. */
  predicate SelectsCategory(ops: seq<Operation>, sel: seq<Operation>, category: string) {
    (forall k :: 0 <= k < |sel| ==> sel[k] in ops && CategoryName(sel[k].category) == category) &&
    (forall k :: 0 <= k < |ops| && CategoryName(ops[k].category) == category ==> ops[k] in sel)
  }

  /** Selecting by category from any list gives exactly its entries of that category. */
  lemma SelectionIn(ops: seq<Operation>, category: string)
    ensures SelectsCategory(ops, SelectCategory(ops, category), category)
  {
  }

  /** Selecting by category gives exactly the catalog entries of that category. */
  lemma CategorySelection(category: string)
    ensures SelectsCategory(TokenOperations(), GetOperationsByCategory(category), category)
  {
    SelectionIn(TokenOperations(), category);
  }

  /** In an identified list, the entries of a category come in catalog order. */
  lemma CategoryOrderIn(ops: seq<Operation>, category: string)
    requires Identified(ops)
    ensures IncreasingBy(SelectCategory(ops, category), (op: Operation) => CatalogIndex(op.opType))
  {
    IndexedIncreasing(ops);
    FilterKeepsOrder(ops, (op: Operation) => CategoryName(op.category) == category,
      (op: Operation) => CatalogIndex(op.opType));
  }

  /** The entries of a category come in catalog order. */
  lemma CategoryOrder(category: string)
    ensures IncreasingBy(GetOperationsByCategory(category), (op: Operation) => CatalogIndex(op.opType))
  {
    CatalogIdentity();
    CategoryOrderIn(TokenOperations(), category);
  }

  /** A string that names no category selects nothing from any list. */
  lemma SelectUnknown(ops: seq<Operation>, category: string)
    requires forall c :: CategoryName(c) != category
    ensures SelectCategory(ops, category) == []
  {
    var p := (op: Operation) => CategoryName(op.category) == category;
    forall k | 0 <= k < |ops| ensures !p(ops[k]) {
    }
    FilterEmptyIff(ops, p);
  }

  /** A string that names no category selects nothing. */
  lemma CategoryUnknown(category: string)
    requires forall c :: CategoryName(c) != category
    ensures GetOperationsByCategory(category) == []
  {
    SelectUnknown(TokenOperations(), category);
  }

  // ---------------------------------------------------------------------
  // The `transfer` example
  // ---------------------------------------------------------------------

  const Ones := "11111111111111111111111111111111"

  /** What a user enters by following the `transfer` listing: its placeholders and the amount's default. */
  function TransferExampleValues(): ParamMap {
    map["source-account" := Str(Ones), "destination-account" := Str(Ones),
        "amount" := Num(100000), "owner" := Str("./owner.json")]
  }

  lemma AmountText()
    ensures IntToDecimal(100000) == "100000"
  {
    assert NatToDecimal(1) == "1";
    assert NatToDecimal(10) == "10";
    assert NatToDecimal(100) == "100";
    assert NatToDecimal(1000) == "1000";
    assert NatToDecimal(10000) == "10000";
    assert NatToDecimal(100000) == "100000";
  }

  /** `source-account` fills its placeholder. */
  lemma TransferFill1()
    ensures FillAll(TransferCommand(), TransferOp().parameters[..1], TransferExampleValues()) ==
      Lit("arch-cli token transfer ", Lit(Ones, Lit(" ", Hole("destination-account", Lit(" ",
        Hole("amount", Lit(" --owner ", Hole("owner", End))))))))
  {
    var ps := TransferOp().parameters;
    assert ps[..1][..0] == [] && ps[..1][0].name == "source-account";
  }

  /** Then `destination-account` fills its placeholder. */
  lemma TransferFill2()
    ensures FillAll(TransferCommand(), TransferOp().parameters[..2], TransferExampleValues()) ==
      Lit("arch-cli token transfer ", Lit(Ones, Lit(" ", Lit(Ones, Lit(" ",
        Hole("amount", Lit(" --owner ", Hole("owner", End))))))))
  {
    var ps := TransferOp().parameters;
    TransferFill1();
    assert ps[..2][..1] == ps[..1];
  }

  /** Then `amount` fills its placeholder. */
  lemma TransferFill3()
    ensures FillAll(TransferCommand(), TransferOp().parameters[..3], TransferExampleValues()) ==
      Lit("arch-cli token transfer ", Lit(Ones, Lit(" ", Lit(Ones, Lit(" ",
        Lit("100000", Lit(" --owner ", Hole("owner", End))))))))
  {
    var ps := TransferOp().parameters;
    TransferFill2();
    AmountText();
    assert ps[..3][..2] == ps[..2];
  }

  /** The four parameters fill the four placeholders with the entered values. */
  lemma TransferExampleFilled()
    ensures FillAll(TransferCommand(), TransferOp().parameters, TransferExampleValues()) ==
      TransferExampleFilledText()
  {
    var ps := TransferOp().parameters;
    TransferFill3();
    assert ps[..3] == ps[..|ps| - 1];
  }

  lemma OnesHasNoBrace()
    ensures '{' !in Ones
  {
  }

  lemma OwnerPathHasNoBrace()
    ensures '{' !in "./owner.json"
  {
  }

  /** What each parameter of `transfer` finds in the example values. */
  lemma TransferExampleLookups()
    ensures Lookup(TransferExampleValues(), "source-account") == Str(Ones)
    ensures Lookup(TransferExampleValues(), "destination-account") == Str(Ones)
    ensures Lookup(TransferExampleValues(), "amount") == Num(100000)
    ensures Lookup(TransferExampleValues(), "owner") == Str("./owner.json")
  {
  }

  /** Every entered value renders without a `{`. */
  lemma TransferExampleBraceFree()
    ensures BraceFreeInputs(TransferOp().parameters, TransferExampleValues())
  {
    var ps := TransferOp().parameters;
    var vals := TransferExampleValues();
    OnesHasNoBrace();
    OwnerPathHasNoBrace();
    SourceAccountNameIsBraceFree();
    DestinationAccountNameIsBraceFree();
    AmountNameIsBraceFree();
    OwnerNameIsBraceFree();
    TransferExampleLookups();
    assert RendersWithoutBrace(ps[0], vals);
    assert RendersWithoutBrace(ps[1], vals);
    assert RendersWithoutBrace(ps[2], vals);
    assert RendersWithoutBrace(ps[3], vals);
  }

  function TransferExampleFilledText(): Template {
    Lit("arch-cli token transfer ", Lit(Ones, Lit(" ", Lit(Ones, Lit(" ",
      Lit("100000", Lit(" --owner ", Lit("./owner.json", End))))))))
  }

  /** Reading a literal piece of a template onto what has been read so far. */
  lemma ReadLit(read: string, s: string, r: Template, next: string)
    requires read + s == next
    ensures read + Text(Lit(s, r)) == next + Text(r)
  {
    assert read + (s + Text(r)) == (read + s) + Text(r);
  }

  lemma ExamplePrefix1()
    ensures "arch-cli token transfer " + "11111111111111111111111111111111" == "arch-cli token transfer 11111111111111111111111111111111"
  {
  }

  lemma ExamplePrefix2()
    ensures "arch-cli token transfer 11111111111111111111111111111111" + " " == "arch-cli token transfer 11111111111111111111111111111111 "
  {
  }

  lemma ExamplePrefix3()
    ensures "arch-cli token transfer 11111111111111111111111111111111 " + "11111111111111111111111111111111" == "arch-cli token transfer 11111111111111111111111111111111 11111111111111111111111111111111"
  {
  }

  lemma ExamplePrefix4()
    ensures "arch-cli token transfer 11111111111111111111111111111111 11111111111111111111111111111111" + " " == "arch-cli token transfer 11111111111111111111111111111111 11111111111111111111111111111111 "
  {
  }

  lemma ExamplePrefix5()
    ensures "arch-cli token transfer 11111111111111111111111111111111 11111111111111111111111111111111 " + "100000" == "arch-cli token transfer 11111111111111111111111111111111 11111111111111111111111111111111 100000"
  {
  }

  lemma ExamplePrefix6()
    ensures "arch-cli token transfer 11111111111111111111111111111111 11111111111111111111111111111111 100000" + " --owner " == "arch-cli token transfer 11111111111111111111111111111111 11111111111111111111111111111111 100000 --owner "
  {
  }

  lemma ExamplePrefix7()
    ensures "arch-cli token transfer 11111111111111111111111111111111 11111111111111111111111111111111 100000 --owner " + "./owner.json" == "arch-cli token transfer 11111111111111111111111111111111 11111111111111111111111111111111 100000 --owner ./owner.json"
  {
  }

  /** The filled `transfer` template from its second account on. */
  function TransferExampleFrom3(): Template {
    Lit(Ones, Lit(" ", Lit("100000", Lit(" --owner ", Lit("./owner.json", End)))))
  }

  /** The filled `transfer` template from its owner flag on. */
  function TransferExampleFrom6(): Template {
    Lit(" --owner ", Lit("./owner.json", End))
  }

  lemma TransferTextHead()
    ensures Text(TransferExampleFilledText()) == "arch-cli token transfer 11111111111111111111111111111111 " + Text(TransferExampleFrom3())
  {
    var f3 := TransferExampleFrom3();
    var f2 := Lit(" ", f3);
    var f1 := Lit("11111111111111111111111111111111", f2);
    ReadLit("", "arch-cli token transfer ", f1, "arch-cli token transfer ");
    ExamplePrefix1();
    ReadLit("arch-cli token transfer ", "11111111111111111111111111111111", f2, "arch-cli token transfer 11111111111111111111111111111111");
    ExamplePrefix2();
    ReadLit("arch-cli token transfer 11111111111111111111111111111111", " ", f3, "arch-cli token transfer 11111111111111111111111111111111 ");
  }

  lemma TransferTextMiddle()
    ensures "arch-cli token transfer 11111111111111111111111111111111 " + Text(TransferExampleFrom3()) == "arch-cli token transfer 11111111111111111111111111111111 11111111111111111111111111111111 100000" + Text(TransferExampleFrom6())
  {
    var f6 := TransferExampleFrom6();
    var f5 := Lit("100000", f6);
    var f4 := Lit(" ", f5);
    ExamplePrefix3();
    ReadLit("arch-cli token transfer 11111111111111111111111111111111 ", "11111111111111111111111111111111", f4, "arch-cli token transfer 11111111111111111111111111111111 11111111111111111111111111111111");
    ExamplePrefix4();
    ReadLit("arch-cli token transfer 11111111111111111111111111111111 11111111111111111111111111111111", " ", f5, "arch-cli token transfer 11111111111111111111111111111111 11111111111111111111111111111111 ");
    ExamplePrefix5();
    ReadLit("arch-cli token transfer 11111111111111111111111111111111 11111111111111111111111111111111 ", "100000", f6, "arch-cli token transfer 11111111111111111111111111111111 11111111111111111111111111111111 100000");
  }

  lemma TransferTextEnd()
    ensures "arch-cli token transfer 11111111111111111111111111111111 11111111111111111111111111111111 100000" + Text(TransferExampleFrom6()) == TransferListing().example
  {
    var f8 := End;
    var f7 := Lit("./owner.json", f8);
    ExamplePrefix6();
    ReadLit("arch-cli token transfer 11111111111111111111111111111111 11111111111111111111111111111111 100000", " --owner ", f7, "arch-cli token transfer 11111111111111111111111111111111 11111111111111111111111111111111 100000 --owner ");
    ExamplePrefix7();
    ReadLit("arch-cli token transfer 11111111111111111111111111111111 11111111111111111111111111111111 100000 --owner ", "./owner.json", f8, "arch-cli token transfer 11111111111111111111111111111111 11111111111111111111111111111111 100000 --owner ./owner.json");
  }

  /** Reading the filled template piece by piece gives the listing's example. */
  lemma TransferExampleText()
    ensures Text(TransferExampleFilledText()) == TransferListing().example
  {
    TransferTextHead();
    TransferTextMiddle();
    TransferTextEnd();
  }

  /**
   * The listing's example command is what `formatCommand` builds for the
   * `transfer` entry from the placeholder values and the amount's default.
   */
  lemma TransferExample()
    ensures Format(Text(TransferOp().command), TransferOp().parameters, TransferExampleValues()) ==
      TransferListing().example
  {
    TransferWellFormed();
    WellFormedIsSearchable(TransferCommand());
    TransferExampleBraceFree();
    FormatFillsTemplate(TransferCommand(), TransferOp().parameters, TransferExampleValues());
    TransferExampleFilled();
    TransferExampleText();
  }

  // ---------------------------------------------------------------------
  // File parameters in the batch operations
  // ---------------------------------------------------------------------

  /**
   * The `batch-transfer` command keeps its `{transfers-file}` token whatever
   * file the user picks, while its listing's example shows a file name there.
   */
  lemma BatchTransferKeepsFileToken(vals: ParamMap)
    requires BraceFreeInputs(BatchTransferOp().parameters, vals)
    ensures Includes(Format(Text(BatchTransferOp().command), BatchTransferOp().parameters, vals), Token("transfers-file"))
  {
    BatchTransferWellFormed();
    WellFormedIsSearchable(BatchTransferCommand());
    BatchTransferPlaceholders();
    BatchTransferNameChecks();
    FileTokenStays(BatchTransferCommand(), BatchTransferOp().parameters, vals, "transfers-file");
  }

  /** Likewise the `batch-mint` command keeps its `{mints-file}` token. */
  lemma BatchMintKeepsFileToken(vals: ParamMap)
    requires BraceFreeInputs(BatchMintOp().parameters, vals)
    ensures Includes(Format(Text(BatchMintOp().command), BatchMintOp().parameters, vals), Token("mints-file"))
  {
    BatchMintWellFormed();
    WellFormedIsSearchable(BatchMintCommand());
    BatchMintPlaceholders();
    BatchMintNameChecks();
    FileTokenStays(BatchMintCommand(), BatchMintOp().parameters, vals, "mints-file");
  }
}
