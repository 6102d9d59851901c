/** `NetworkError` and the inner-error bodies (SOLARAPI/APISupport/NetworkError.swift):
    an HTTP-style code with an optional message, and the five code classes
    the callers branch on. */
module NetworkErrors {
  import opened Wrappers

  datatype NetworkError = NetworkError(code: int, message: Option<string>) {
    /** `localization`: the message itself. */
    function Localization(): (r: Option<string>)
      ensures r.Some? <==> message.Some?
      ensures r.Some? ==> r.value == message.value
    {
      message
    }

    /** `badRequest`. */
    predicate BadRequest() {
      code == 400
    }

    /** `unauthorized`: the closed range 401...402. */
    predicate Unauthorized() {
      401 <= code <= 402
    }

    /** `accessDenied`. */
    predicate AccessDenied() {
      code == 403
    }

    /** `notFound`. */
    predicate NotFound() {
      code == 404
    }

    /** `isServerError`: the closed range 500...511. */
    predicate IsServerError() {
      500 <= code <= 511
    }

    /** How many of the five classes the code falls in. */
    function ClassCount(): nat {
      (if BadRequest() then 1 else 0) + (if Unauthorized() then 1 else 0) + (if AccessDenied() then 1 else 0)
      + (if NotFound() then 1 else 0) + (if IsServerError() then 1 else 0)
    }
  }

  /** No code is in two classes, `unauthorized` is exactly 401 and 402, and
      a code outside 400...404 and 500...511 is in none. */
  lemma ClassesPartition(e: NetworkError)
    ensures e.Unauthorized() <==> e.code == 401 || e.code == 402
    ensures e.ClassCount() <= 1
    ensures e.ClassCount() == 0 <==> !(400 <= e.code <= 404 || 500 <= e.code <= 511)
  {
  }

  /** `InnerError`: a code and a message. */
  datatype InnerError = InnerError(code: int, message: string)

  /** `SingleInnerError`: the JSON body `{ "error": { code, message } }`. */
  datatype SingleInnerError = SingleInnerError(error: InnerError)

  /** `SingleInnerError(code:message:)`: wraps an inner error carrying the
      same two fields. */
  function SingleInner(code: int, message: string): (r: SingleInnerError)
    ensures r.error.code == code && r.error.message == message
  {
    SingleInnerError(InnerError(code, message))
  }
}

/** `SessionsServiceError` (Services/SessionsService/SessionServiceError.swift):
    the errors of the session service and the inner codes a node answers
    with for three of them. */
module SessionServiceErrors {

  datatype SessionsServiceError =
    | InvalidURL
    | ConnectionParsingFailed
    | NodeMisconfigured
    | NoQuota
    | ServerLocalized(text: string)
    | Other(description: string)

  /** `allCases`: only the three cases that carry inner codes. */
  const AllCases: seq<SessionsServiceError> := [ConnectionParsingFailed, NodeMisconfigured, NoQuota]

  /** `innerCodes`. */
  function InnerCodes(e: SessionsServiceError): seq<int> {
    match e
    case NodeMisconfigured => [3, 4, 5]
    case NoQuota => [9, 10]
    case ConnectionParsingFailed => [6, 7, 8]
    case _ => []
  }

  /** The listed cases are exactly the ones with inner codes. */
  lemma AllCasesHaveCodes(e: SessionsServiceError)
    ensures e in AllCases <==> InnerCodes(e) != []
    ensures |AllCases| == 3
  {
  }

  /** The inner codes of the listed cases are pairwise disjoint and together
      are exactly 3 to 10: every such code names one case. */
  lemma InnerCodesPartition(code: int)
    ensures (exists e :: e in AllCases && code in InnerCodes(e)) <==> 3 <= code <= 10
    ensures forall e1, e2 :: code in InnerCodes(e1) && code in InnerCodes(e2) ==> e1 == e2
  {
    if 3 <= code <= 5 {
      assert code in InnerCodes(NodeMisconfigured);
    } else if 6 <= code <= 8 {
      assert code in InnerCodes(ConnectionParsingFailed);
    } else if 9 <= code <= 10 {
      assert code in InnerCodes(NoQuota);
    }
  }
}

/** `WalletServiceError`'s description and response body
    (Common/Extensions/Wallet/WalletServiceError+Ext.swift). */
module WalletServiceErrors {
  import opened Wrappers
  import opened NetworkErrors

  datatype WalletServiceError =
    | AccountMatchesDestination
    | MissingMnemonics
    | MissingAuthorization
    | NotEnoughTokens
    | MnemonicsDoNotMatch
    | SavingError

  /** `errorDescription`, which is also the `localizedDescription`. */
  function ErrorDescription(e: WalletServiceError): string {
    match e
    case AccountMatchesDestination => "account_matches_destination"
    case MissingMnemonics => "missing_mnemonics"
    case MissingAuthorization => "missing_authorization"
    case NotEnoughTokens => "not_enough_tokens"
    case MnemonicsDoNotMatch => "mnemonic_do_not_match"
    case SavingError => "saving_error"
  }

  /** `body`: the code for the case, with the description as message. */
  function Body(e: WalletServiceError): SingleInnerError {
    match e
    case AccountMatchesDestination => SingleInner(403, ErrorDescription(e))
    case MissingMnemonics => SingleInner(401, ErrorDescription(e))
    case MissingAuthorization => SingleInner(401, ErrorDescription(e))
    case NotEnoughTokens => SingleInner(402, ErrorDescription(e))
    case MnemonicsDoNotMatch => SingleInner(401, ErrorDescription(e))
    case SavingError => SingleInner(500, ErrorDescription(e))
  }

  /** The body's message is always the description, its code is one of
      401, 402, 403 and 500, and as a network error it is unauthorized
      exactly for the three credential cases and the missing tokens, access
      denied for the matching destination and a server error for saving. */
  lemma BodyCodes(e: WalletServiceError)
    ensures Body(e).error.message == ErrorDescription(e)
    ensures Body(e).error.code in {401, 402, 403, 500}
    ensures Body(e).error.code == 401 <==> e in {MissingMnemonics, MissingAuthorization, MnemonicsDoNotMatch}
    ensures var n := NetworkError(Body(e).error.code, Some(Body(e).error.message));
      (n.Unauthorized() <==> e != AccountMatchesDestination && e != SavingError)
      && (n.AccessDenied() <==> e == AccountMatchesDestination)
      && (n.IsServerError() <==> e == SavingError)
  {
  }

  /** No two cases share a description, so the message names the case. */
  lemma DescriptionsDistinct(e1: WalletServiceError, e2: WalletServiceError)
    ensures ErrorDescription(e1) == ErrorDescription(e2) ==> e1 == e2
  {
    if e1 != e2 {
      DescriptionsDiffer(e1, e2);
    }
  }

  lemma DescriptionsDiffer(e1: WalletServiceError, e2: WalletServiceError)
    requires e1 != e2
    ensures ErrorDescription(e1) != ErrorDescription(e2)
  {
    var d1, d2 := ErrorDescription(e1), ErrorDescription(e2);
    if |d1| == |d2| {
      // Descriptions of equal length differ in one of their first two
      // letters.
      assert d1[0] != d2[0] || d1[1] != d2[1];
    }
  }
}
