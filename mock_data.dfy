/** The seed data the advocate views start from, with each ISO timestamp
    written as milliseconds since the epoch. The case-request inbox loads
    its own local list after its simulated fetch; that list holds the same
    four records as the shared one here. */
module MockData {
  import opened Types

  const InitialCaseRequests: seq<CaseRequest> := [
    CaseRequest("REQ001", "Rohan Sharma",
      "Received a traffic challan for jumping a red light in Mumbai. The fine amount seems excessive and I wish to contest it.",
      "Motor Vehicle Act, 1988", "Medium", "Pending", 1722162600000),
    CaseRequest("REQ002", "Priya Desai",
      "My landlord is refusing to return the security deposit after I vacated the flat, citing unreasonable damages.",
      "Tenancy & Rent Control Law", "High", "Pending", 1722158100000),
    CaseRequest("REQ003", "Amit Patel",
      "A newly purchased mobile phone stopped working within a week. The seller is refusing to replace or refund the amount.",
      "Consumer Protection Act, 2019", "Low", "Accepted", 1722092400000),
    CaseRequest("REQ004", "Sunita Verma",
      "Dispute with a neighbor over the construction of a boundary wall that encroaches on my property line.",
      "Property & Real Estate Law", "Medium", "Rejected", 1721994300000)
  ]

  /** The chat thread of case REQ003. */
  const InitialChatHistory: seq<CaseChatMessage> := [
    CaseChatMessage("msg1", "REQ003", "advocate",
      "Hello Mr. Patel, I have accepted your case regarding the defective mobile phone. Could you please provide a copy of the purchase receipt?",
      1722096000000),
    CaseChatMessage("msg2", "REQ003", "citizen",
      "Thank you for taking my case. Yes, I have the receipt. I will send it over shortly.",
      1722096300000)
  ]
}
