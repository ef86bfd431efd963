/**
 * The account records the services work on. A field that is missing or empty
 * in the Salesforce record is the empty string.
 */
module Accounts {

  /** A customer account: Id, Name, Website and the Billing* address fields. */
  datatype Customer = Customer(
    id: string,
    name: string,
    website: string,
    city: string,
    state: string,
    country: string,
    postal: string)

  /** A shell account: Id, ZI_Id__c and the ZI_* company fields. */
  datatype Shell = Shell(
    id: string,
    ziId: string,
    name: string,
    website: string,
    city: string,
    state: string,
    country: string,
    postal: string)
}
