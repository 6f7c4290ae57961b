/** The gateway class: its currency list and the check of its
    configuration form. */
module Gateway {
  import opened Php

  /** The currencies the gateway accepts, in the order it lists them. */
  function SupportedCurrencies(): (r: seq<string>)
    ensures |r| == 4 && r[0] == "EGP" && r[1] == "USD" && r[2] == "EUR" && r[3] == "GBP"
    ensures forall i, j :: 0 <= i < j < |r| ==> r[i] != r[j]
    ensures forall c :: c in r <==> c == "EGP" || c == "USD" || c == "EUR" || c == "GBP"
  {
    ["EGP", "USD", "EUR", "GBP"]
  }

  /** `get_string('gatewaycannotbeenabled', 'paygw_shakeout')`. */
  const CannotBeEnabled: string :=
    "The payment gateway cannot be enabled because the configuration is incomplete."

  /** `empty($data[key])`: the key is missing, or its value is falsy. */
  predicate EmptyField(data: seq<(string, Value)>, key: string)
  {
    !Truthy(Lookup(data, key))
  }

  /** validate_gateway_form: `errors` (passed by reference) gains the
      "cannot be enabled" message under each of `apikey` and `secretkey`
      whose value in the submitted form is empty. */
  method ValidateGatewayForm(data: seq<(string, Value)>, errors: map<string, string>)
    returns (result: map<string, string>)
    ensures "apikey" in result && result["apikey"] == CannotBeEnabled <== EmptyField(data, "apikey")
    ensures "secretkey" in result && result["secretkey"] == CannotBeEnabled <== EmptyField(data, "secretkey")
    ensures !EmptyField(data, "apikey") ==>
              ("apikey" in result <==> "apikey" in errors) &&
              ("apikey" in errors ==> result["apikey"] == errors["apikey"])
    ensures !EmptyField(data, "secretkey") ==>
              ("secretkey" in result <==> "secretkey" in errors) &&
              ("secretkey" in errors ==> result["secretkey"] == errors["secretkey"])
    ensures forall k :: k != "apikey" && k != "secretkey" ==>
              (k in result <==> k in errors) && (k in errors ==> result[k] == errors[k])
    ensures !EmptyField(data, "apikey") && !EmptyField(data, "secretkey") ==> result == errors
  {
    result := errors;
    if EmptyField(data, "apikey") {
      result := result["apikey" := CannotBeEnabled];
    }
    if EmptyField(data, "secretkey") {
      result := result["secretkey" := CannotBeEnabled];
    }
  }

  /** With each key present once as text, that key's field counts as empty
      exactly when the text is "" or "0". */
  lemma {:induction false} TextKeysAccepted(data: seq<(string, Value)>, apikey: string, secretkey: string)
    requires UniqueKeys(data)
    requires ("apikey", Str(apikey)) in data && ("secretkey", Str(secretkey)) in data
    ensures EmptyField(data, "apikey") <==> apikey == "" || apikey == "0"
    ensures EmptyField(data, "secretkey") <==> secretkey == "" || secretkey == "0"
  {
    LookupFinds(data, "apikey");
    LookupFinds(data, "secretkey");
  }

  /** A form with no entry under `key` has that field empty, so validation
      flags it. */
  lemma {:induction false} MissingKeyFlagged(data: seq<(string, Value)>, key: string)
    requires forall i :: 0 <= i < |data| ==> data[i].0 != key
    ensures EmptyField(data, key)
  {
    LookupFinds(data, key);
  }
}
