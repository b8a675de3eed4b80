/**
 * The transfer form: its field rules, and the submit sequence that looks up
 * the two banks, asks the payment service for a transfer, stores a record of
 * it and, when the record is stored, clears the form and goes home.
 */
module PaymentTransferForm {
  import opened Wrappers
  import TransactionActions

  datatype FormValues = FormValues(email: string, name: string, amount: string, senderBank: string, sharableId: string)

  /** The form's initial (and reset) values: every field empty. */
  const Defaults := FormValues("", "", "", "", "")

  datatype Field = Email | Name | Amount | SenderBank | SharableId

  datatype FieldError = FieldError(field: Field, message: string)

  const InvalidEmail := "Invalid email address"
  const AmountRequired := "Amount is required"
  const InvalidBank := "Please select a valid bank account"
  const InvalidSharableId := "Please select a valid sharable Id"

  /** The shortest sharable id the form accepts. */
  const MinSharableIdLength := 8

  /**
   * The schema's checks, one error per failing field in schema order. The
   * e-mail syntax check is the parameter `isEmail`; the note accepts any string.
   */
  function Validate(values: FormValues, isEmail: string -> bool): (errors: seq<FieldError>)
    ensures FieldError(Email, InvalidEmail) in errors <==> !isEmail(values.email)
    ensures FieldError(Amount, AmountRequired) in errors <==> values.amount == ""
    ensures FieldError(SenderBank, InvalidBank) in errors <==> values.senderBank == ""
    ensures FieldError(SharableId, InvalidSharableId) in errors <==> |values.sharableId| < MinSharableIdLength
    ensures forall i :: 0 <= i < |errors| ==> errors[i].field != Name
    ensures errors == [] <==>
      isEmail(values.email) && values.amount != "" && values.senderBank != "" && |values.sharableId| >= MinSharableIdLength
  {
    (if isEmail(values.email) then [] else [FieldError(Email, InvalidEmail)])
    + (if |values.amount| >= 1 then [] else [FieldError(Amount, AmountRequired)])
    + (if |values.senderBank| >= 1 then [] else [FieldError(SenderBank, InvalidBank)])
    + (if |values.sharableId| >= MinSharableIdLength then [] else [FieldError(SharableId, InvalidSharableId)])
  }

  /** The note never affects validation. */
  lemma NoteNeverValidated(values: FormValues, note: string, isEmail: string -> bool)
    ensures Validate(values.(name := note), isEmail) == Validate(values, isEmail)
  {
  }

  /** The untouched form cannot be submitted: amount, bank and sharable id are all reported. */
  lemma DefaultsRejected(isEmail: string -> bool)
    ensures var errors := Validate(Defaults, isEmail);
      && FieldError(Amount, AmountRequired) in errors
      && FieldError(SenderBank, InvalidBank) in errors
      && FieldError(SharableId, InvalidSharableId) in errors
  {
  }

  // ---------------------------------------------------------------------------
  // Submitting
  // ---------------------------------------------------------------------------

  /** A stored bank, as far as the transfer uses it. */
  datatype BankDocument = BankDocument(id: string, userId: string, fundingSourceUrl: string)

  /** What the payment service is asked to move. */
  datatype TransferRequest = TransferRequest(sourceFundingSourceUrl: string, destinationFundingSourceUrl: string, amount: string)

  /**
   * The external calls of a submit. A call that throws gives `Failure`; a bank
   * lookup may also give no bank, and the transfer may give a falsy result.
   */
  datatype Services = Services(
    decryptId: string -> Result<string, string>,
    getBankByAccountId: string -> Result<Option<BankDocument>, string>,
    getBank: string -> Result<Option<BankDocument>, string>,
    createTransfer: TransferRequest -> Result<Option<string>, string>,
    createDocument: TransactionActions.Document -> Result<TransactionActions.Document, string>)

  /** The record stored for a transfer: the note, amount and e-mail from the form, the parties from the two banks. */
  function TransferRecord(values: FormValues, sender: BankDocument, receiver: BankDocument): (record: TransactionActions.Document)
    ensures record.Keys == {"name", "amount", "senderId", "senderBankId", "receiverId", "receiverBankId", "email"}
    ensures record["name"] == TransactionActions.Str(values.name)
    ensures record["amount"] == TransactionActions.Str(values.amount)
    ensures record["email"] == TransactionActions.Str(values.email)
    ensures record["senderId"] == TransactionActions.Str(sender.userId)
    ensures record["senderBankId"] == TransactionActions.Str(sender.id)
    ensures record["receiverId"] == TransactionActions.Str(receiver.userId)
    ensures record["receiverBankId"] == TransactionActions.Str(receiver.id)
  {
    map[
      "name" := TransactionActions.Str(values.name),
      "amount" := TransactionActions.Str(values.amount),
      "senderId" := TransactionActions.Str(sender.userId),
      "senderBankId" := TransactionActions.Str(sender.id),
      "receiverId" := TransactionActions.Str(receiver.userId),
      "receiverBankId" := TransactionActions.Str(receiver.id),
      "email" := TransactionActions.Str(values.email)]
  }

  /** What one submit did to the outside world and to the form. */
  datatype SubmitSteps = SubmitSteps(transfer: Option<TransferRequest>, record: Option<TransactionActions.Document>, reset: bool)

  /** Both banks, when both lookups succeed and find a bank; either failure is caught by the submit. */
  function Banks(values: FormValues, services: Services): (r: Option<(BankDocument, BankDocument)>)
    ensures r.Some? <==>
      && services.decryptId(values.sharableId).Success?
      && services.getBankByAccountId(services.decryptId(values.sharableId).value).Success?
      && services.getBankByAccountId(services.decryptId(values.sharableId).value).value.Some?
      && services.getBank(values.senderBank).Success? && services.getBank(values.senderBank).value.Some?
    ensures r.Some? ==>
      && r.value.0 == services.getBank(values.senderBank).value.value
      && r.value.1 == services.getBankByAccountId(services.decryptId(values.sharableId).value).value.value
  {
    match services.decryptId(values.sharableId)
    case Failure(_) => None
    case Success(receiverAccountId) =>
      var receiver := services.getBankByAccountId(receiverAccountId);
      var sender := services.getBank(values.senderBank);
      if receiver.Success? && receiver.value.Some? && sender.Success? && sender.value.Some?
      then Some((sender.value.value, receiver.value.value))
      else None
  }

  /**
   * The submit sequence: no transfer without both banks, no record without a
   * truthy transfer, and the form is reset (and the page sent home) only when
   * the record is stored. Every error is caught.
   */
  function SubmitSpec(values: FormValues, services: Services): (steps: SubmitSteps)
    ensures steps.transfer.Some? <==> Banks(values, services).Some?
    ensures steps.transfer.Some? ==>
      var (sender, receiver) := Banks(values, services).value;
      steps.transfer.value == TransferRequest(sender.fundingSourceUrl, receiver.fundingSourceUrl, values.amount)
    ensures steps.record.Some? <==>
      steps.transfer.Some? && services.createTransfer(steps.transfer.value).Success?
      && Truthy(services.createTransfer(steps.transfer.value).value)
    ensures steps.record.Some? ==>
      var (sender, receiver) := Banks(values, services).value;
      steps.record.value == TransferRecord(values, sender, receiver)
    ensures steps.reset <==>
      steps.record.Some? && TransactionActions.CreateTransaction(steps.record.value, services.createDocument).Some?
  {
    match Banks(values, services)
    case None => SubmitSteps(None, None, false)
    case Some((sender, receiver)) =>
      var request := TransferRequest(sender.fundingSourceUrl, receiver.fundingSourceUrl, values.amount);
      var transfer := services.createTransfer(request);
      if transfer.Failure? || !Truthy(transfer.value) then SubmitSteps(Some(request), None, false)
      else
        var record := TransferRecord(values, sender, receiver);
        var stored := TransactionActions.CreateTransaction(record, services.createDocument);
        SubmitSteps(Some(request), Some(record), stored.Some?)
  }

  /** The stored record of a transfer gets the default channel and category, and its parties from the right banks. */
  lemma StoredRecordFields(values: FormValues, sender: BankDocument, receiver: BankDocument)
    ensures var data := TransactionActions.WithDefaults(TransferRecord(values, sender, receiver));
      && data["channel"] == TransactionActions.Str(TransactionActions.DefaultChannel)
      && data["category"] == TransactionActions.Str(TransactionActions.DefaultCategory)
      && data["senderBankId"] == TransactionActions.Str(sender.id)
      && data["receiverBankId"] == TransactionActions.Str(receiver.id)
      && data["senderId"] == TransactionActions.Str(sender.userId)
      && data["receiverId"] == TransactionActions.Str(receiver.userId)
  {
    var record := TransferRecord(values, sender, receiver);
    assert "channel" !in record && "category" !in record;
  }

  /** The form's state and what it has sent out. */
  class Form {
    var isLoading: bool
    var values: FormValues
    /** The routes pushed to the router. */
    var navigations: seq<string>
    /** The transfers requested from the payment service. */
    var transfers: seq<TransferRequest>
    /** The records handed to the database. */
    var records: seq<TransactionActions.Document>

    constructor ()
      ensures !isLoading && values == Defaults && navigations == [] && transfers == [] && records == []
    {
      isLoading, values, navigations, transfers, records := false, Defaults, [], [], [];
    }

    /** `submit`: the loading flag is raised for the sequence and lowered on every way out. */
    method Submit(data: FormValues, services: Services)
      modifies this
      ensures var steps := SubmitSpec(data, services);
        && !isLoading
        && transfers == old(transfers) + (if steps.transfer.Some? then [steps.transfer.value] else [])
        && records == old(records) + (if steps.record.Some? then [steps.record.value] else [])
        && values == (if steps.reset then Defaults else old(values))
        && navigations == old(navigations) + (if steps.reset then ["/"] else [])
    {
      isLoading := true;
      var banks := Banks(data, services);
      if banks.None? {
        // the decryption or a lookup threw, or a bank was missing: caught
        isLoading := false;
        return;
      }
      var (sender, receiver) := banks.value;
      var request := TransferRequest(sender.fundingSourceUrl, receiver.fundingSourceUrl, data.amount);
      transfers := transfers + [request];
      var transfer := services.createTransfer(request);
      if transfer.Failure? || !Truthy(transfer.value) {
        isLoading := false;
        return;
      }
      var record := TransferRecord(data, sender, receiver);
      records := records + [record];
      var stored := TransactionActions.CreateTransaction(record, services.createDocument);
      if stored.Some? {
        values := Defaults;
        navigations := navigations + ["/"];
      }
      isLoading := false;
    }

    /** The form's submit handler: the sequence runs only when the current values pass validation. */
    method HandleSubmit(isEmail: string -> bool, services: Services)
      modifies this
      ensures Validate(old(values), isEmail) != [] ==>
        isLoading == old(isLoading) && values == old(values) && navigations == old(navigations)
        && transfers == old(transfers) && records == old(records)
      ensures Validate(old(values), isEmail) == [] ==>
        var steps := SubmitSpec(old(values), services);
        && !isLoading
        && transfers == old(transfers) + (if steps.transfer.Some? then [steps.transfer.value] else [])
        && records == old(records) + (if steps.record.Some? then [steps.record.value] else [])
        && values == (if steps.reset then Defaults else old(values))
        && navigations == old(navigations) + (if steps.reset then ["/"] else [])
    {
      if Validate(values, isEmail) == [] {
        Submit(values, services);
      }
    }
  }
}
