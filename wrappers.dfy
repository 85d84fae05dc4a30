/** Option and Result, used for PHP's nullable values and for the exceptions the helper lets escape. */
module Wrappers {
  datatype Option<+T> = None | Some(value: T)

  datatype Result<+T, +E> = Ok(value: T) | Err(error: E)
}

/** The failures that abort building a subscriber's record (they propagate to the caller). */
module Failures {
  datatype Failure =
    | NoSuchCustomer(customerId: int)     // CustomerRepository::getById throws NoSuchEntityException
    | NoSuchStore(storeId: int)           // StoreManagerInterface::getStore throws
    | NoSuchWebsite(websiteId: int)       // StoreManagerInterface::getWebsite throws
    | NoSuchGroup(groupId: int)           // StoreManagerInterface::getGroup throws
    | OrderDateUnparsable(date: string)   // date_create returns false; ->setTimezone on it is an Error
    | BirthdayTypeError                   // formatBirthday(string) called with a null date of birth
}
