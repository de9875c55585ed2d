/** The two tool side effects: the process-wide, append-only lists of leads and feedback,
    the acknowledgement each tool returns, and the Markdown reports of both lists. */
module Recorders {
  import opened Wrappers
  import opened Text

  /** One captured prospective customer. Tool arguments may be missing, hence the options. */
  datatype LeadRecord = LeadRecord(timestamp: string, name: Option<string>, email: Option<string>, message: Option<string>)

  /** One captured question the agent could not answer. */
  datatype FeedbackRecord = FeedbackRecord(timestamp: string, question: Option<string>)

  /** What `record_customer_interest` returns to the model. */
  function InterestAck(name: Option<string>, email: Option<string>): string
  {
    "Thank you, " + Show(name) + "! Your interest has been recorded. We'll contact you at " + Show(email) + " soon."
  }

  /** The acknowledgement names the customer and repeats the address they will be contacted at. */
  lemma InterestAckNamesCustomer(name: Option<string>, email: Option<string>)
    ensures IsInfix(Show(name), InterestAck(name, email))
    ensures IsInfix(Show(email), InterestAck(name, email))
  {
    var middle := "! Your interest has been recorded. We'll contact you at ";
    InfixOfConcat("Thank you, ", Show(name), middle + Show(email) + " soon.");
    assert "Thank you, " + Show(name) + (middle + Show(email) + " soon.") == InterestAck(name, email);
    var p := "Thank you, " + Show(name) + middle;
    InfixOfConcat(p, Show(email), " soon.");
  }

  /** What `record_feedback` returns to the model, whatever the question. */
  const FeedbackAck: string := "Thank you for your question. I've recorded it and our team will review it to improve our service."

  const NoLeads: string := "No leads collected yet."
  const LeadsHeader: string := "## \U{1F4DD} Collected Leads\n\n"
  const NoFeedback: string := "No feedback recorded yet."
  const FeedbackHeader: string := "## \U{1F4AC} Recorded Feedback\n\n"

  /** The Markdown block for the lead numbered `number`. */
  function LeadEntry(number: nat, lead: LeadRecord): string
  {
    "**Lead #" + NatToString(number) + "**\n"
    + "- **Time:** " + lead.timestamp + "\n"
    + "- **Name:** " + Show(lead.name) + "\n"
    + "- **Email:** " + Show(lead.email) + "\n"
    + "- **Message:** " + Show(lead.message) + "\n\n"
  }

  /** The Markdown block for the feedback entry numbered `number`. */
  function FeedbackEntry(number: nat, feedback: FeedbackRecord): string
  {
    "**Feedback #" + NatToString(number) + "**\n"
    + "- **Time:** " + feedback.timestamp + "\n"
    + "- **Question:** " + Show(feedback.question) + "\n\n"
  }

  /** The blocks of `items` in order, numbered from 1 as `enumerate(items, 1)` does. */
  function Enumerate<T>(items: seq<T>, entry: (nat, T) -> string): string
  {
    if items == [] then ""
    else Enumerate(items[..|items| - 1], entry) + entry(|items|, items[|items| - 1])
  }

  /** Enumerating one more item appends its block, numbered by its position. */
  lemma EnumerateSnoc<T>(items: seq<T>, entry: (nat, T) -> string, i: nat)
    requires i < |items|
    ensures Enumerate(items[..i + 1], entry) == Enumerate(items[..i], entry) + entry(i + 1, items[i])
  {
    assert items[..i + 1][..i] == items[..i];
  }

  /** Every item's block, with its 1-based number, occurs in the enumeration. */
  lemma {:induction false} EnumerateListsEvery<T>(items: seq<T>, entry: (nat, T) -> string, i: nat)
    requires i < |items|
    ensures IsInfix(entry(i + 1, items[i]), Enumerate(items, entry))
  {
    var init := items[..|items| - 1];
    var last := entry(|items|, items[|items| - 1]);
    if i == |items| - 1 {
      InfixOfConcat(Enumerate(init, entry), last, "");
      assert Enumerate(init, entry) + last + "" == Enumerate(items, entry);
    } else {
      assert init[i] == items[i];
      EnumerateListsEvery(init, entry, i);
      InfixOfConcat("", Enumerate(init, entry), last);
      assert "" + Enumerate(init, entry) + last == Enumerate(items, entry);
      InfixTransitive(entry(i + 1, items[i]), Enumerate(init, entry), Enumerate(items, entry));
    }
  }

  /** What `view_leads` shows for the list `leads`. */
  function LeadsReport(leads: seq<LeadRecord>): string
  {
    if leads == [] then NoLeads else LeadsHeader + Enumerate(leads, LeadEntry)
  }

  /** What `view_feedback` shows for the list `feedback`. */
  function FeedbackReport(feedback: seq<FeedbackRecord>): string
  {
    if feedback == [] then NoFeedback else FeedbackHeader + Enumerate(feedback, FeedbackEntry)
  }

  /** The "nothing collected" text is shown exactly when the list is empty. */
  lemma LeadsReportEmptyIff(leads: seq<LeadRecord>)
    ensures (LeadsReport(leads) == NoLeads) == (leads == [])
  {
  }

  lemma FeedbackReportEmptyIff(feedback: seq<FeedbackRecord>)
    ensures (FeedbackReport(feedback) == NoFeedback) == (feedback == [])
  {
  }

  /** The i-th lead (0-based) is listed as lead number i + 1. */
  lemma LeadsReportListsEvery(leads: seq<LeadRecord>, i: nat)
    requires i < |leads|
    ensures IsInfix(LeadEntry(i + 1, leads[i]), LeadsReport(leads))
  {
    EnumerateListsEvery(leads, LeadEntry, i);
    InfixOfConcat(LeadsHeader, Enumerate(leads, LeadEntry), "");
    assert LeadsHeader + Enumerate(leads, LeadEntry) + "" == LeadsReport(leads);
    InfixTransitive(LeadEntry(i + 1, leads[i]), Enumerate(leads, LeadEntry), LeadsReport(leads));
  }

  /** The i-th feedback entry (0-based) is listed as number i + 1. */
  lemma FeedbackReportListsEvery(feedback: seq<FeedbackRecord>, i: nat)
    requires i < |feedback|
    ensures IsInfix(FeedbackEntry(i + 1, feedback[i]), FeedbackReport(feedback))
  {
    EnumerateListsEvery(feedback, FeedbackEntry, i);
    InfixOfConcat(FeedbackHeader, Enumerate(feedback, FeedbackEntry), "");
    assert FeedbackHeader + Enumerate(feedback, FeedbackEntry) + "" == FeedbackReport(feedback);
    InfixTransitive(FeedbackEntry(i + 1, feedback[i]), Enumerate(feedback, FeedbackEntry), FeedbackReport(feedback));
  }

  /** The module-level `leads_database` and `feedback_database`: lists that only grow. */
  class Store {
    var leads: seq<LeadRecord>
    var feedback: seq<FeedbackRecord>

    constructor ()
      ensures leads == [] && feedback == []
    {
      leads := [];
      feedback := [];
    }

    /** `record_customer_interest`: append one lead stamped `timestamp`, answer with its acknowledgement. */
    method RecordCustomerInterest(email: Option<string>, name: Option<string>, message: Option<string>, timestamp: string)
      returns (ack: string)
      modifies this
      ensures leads == old(leads) + [LeadRecord(timestamp, name, email, message)]
      ensures feedback == old(feedback)
      ensures ack == InterestAck(name, email)
    {
      leads := leads + [LeadRecord(timestamp, name, email, message)];
      ack := InterestAck(name, email);
    }

    /** `record_feedback`: append one entry stamped `timestamp`, answer with the fixed acknowledgement. */
    method RecordFeedback(question: Option<string>, timestamp: string) returns (ack: string)
      modifies this
      ensures feedback == old(feedback) + [FeedbackRecord(timestamp, question)]
      ensures leads == old(leads)
      ensures ack == FeedbackAck
    {
      feedback := feedback + [FeedbackRecord(timestamp, question)];
      ack := FeedbackAck;
    }

    /** `view_leads`: the numbered Markdown listing of every lead, built block by block. */
    method ViewLeads() returns (output: string)
      ensures output == LeadsReport(leads)
    {
      if leads == [] {
        return NoLeads;
      }
      output := LeadsHeader;
      var i := 0;
      while i < |leads|
        invariant 0 <= i <= |leads|
        invariant output == LeadsHeader + Enumerate(leads[..i], LeadEntry)
      {
        EnumerateSnoc(leads, LeadEntry, i);
        ConcatAssoc(LeadsHeader, Enumerate(leads[..i], LeadEntry), LeadEntry(i + 1, leads[i]));
        output := output + LeadEntry(i + 1, leads[i]);
        i := i + 1;
      }
      assert leads[..i] == leads;
    }

    /** `view_feedback`: the numbered Markdown listing of every feedback entry. */
    method ViewFeedback() returns (output: string)
      ensures output == FeedbackReport(feedback)
    {
      if feedback == [] {
        return NoFeedback;
      }
      output := FeedbackHeader;
      var i := 0;
      while i < |feedback|
        invariant 0 <= i <= |feedback|
        invariant output == FeedbackHeader + Enumerate(feedback[..i], FeedbackEntry)
      {
        EnumerateSnoc(feedback, FeedbackEntry, i);
        ConcatAssoc(FeedbackHeader, Enumerate(feedback[..i], FeedbackEntry), FeedbackEntry(i + 1, feedback[i]));
        output := output + FeedbackEntry(i + 1, feedback[i]);
        i := i + 1;
      }
      assert feedback[..i] == feedback;
    }
  }
}
