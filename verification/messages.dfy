/**
 * The exception messages the services raise, written once. A message that
 * names an entity or a status is built from a fixed prefix and the value.
 */
module Messages {
  import JavaText

  /** "<entity> not found with ID: <id>". */
  function NotFound(entity: string, id: int): string
  {
    entity + " not found with ID: " + JavaText.DecimalString(id)
  }

  const PRODUCT := "Product"
  const ORDER := "Order"
  const ORDER_ITEM := "Order item"
  const SUPPLIER := "Supplier"
  const SUPPLIER_ORDER := "Supplier order"
  const USER := "User"

  // StockServiceImpl
  const NULL_PRODUCT_ID := "Product ID cannot be null"
  const NULL_MOVEMENT_TYPE := "Movement type cannot be null"
  const INSUFFICIENT_QUANTITY := "Cannot update stock: insufficient quantity available"
  const EMPTY_ADJUSTMENT_NOTES := "Notes cannot be empty for stock adjustment"
  const NULL_ORDER_ID := "Order ID cannot be null"
  const CANNOT_PROCESS_STOCK := "Cannot process stock for order with status: "
  const ORDER_HAS_NO_ITEMS := "Order has no items"
  const INSUFFICIENT_STOCK := "Insufficient stock for product: "
  const NULL_SUPPLIER_ORDER_ID := "Supplier order ID cannot be null"
  const CANNOT_PROCESS_SUPPLIER_STOCK := "Cannot process stock for supplier order with status: "
  const SUPPLIER_ORDER_HAS_NO_ITEMS := "Supplier order has no items"

  function InsufficientStock(name: string, sku: string): string
  {
    INSUFFICIENT_STOCK + name + " (SKU: " + sku + ")"
  }

  // OrderServiceImpl
  const NULL_STATUS := "Status cannot be null"
  const NULL_ORDER_ITEM := "Order item cannot be null"
  const NULL_ORDER_ITEM_ID := "Order item ID cannot be null"
  const CANNOT_ADD_ITEMS := "Cannot add items to order with status: "
  const CANNOT_UPDATE_ITEMS := "Cannot update items for order with status: "
  const CANNOT_REMOVE_ITEMS := "Cannot remove items from order with status: "
  const CANNOT_CANCEL := "Cannot cancel order with status: "
  const NULL_PAYMENT_DETAILS := "Payment details cannot be null"
  const CANNOT_PAY := "Cannot process payment for order with status: "
  const NULL_SHIPMENT_DETAILS := "Shipment details cannot be null"
  const CANNOT_SHIP := "Cannot process shipment for order with status: "
  const FAILED_PROCESS_SHIPMENT := "Failed to process shipment"

  /** The transaction interceptor's wrapper message, for a failure at commit. */
  const TRANSACTION_FAILED := "Transaction failed"
  const FAILED_CREATE_ORDER := "Failed to create order"
  const FAILED_UPDATE_ORDER := "Failed to update order"
  const FAILED_UPDATE_ORDER_TOTAL := "Failed to update order total"
  const ORDER_VALIDATION_FAILED := "Order validation failed"
  const EMPTY_CUSTOMER_NAME := "Customer name cannot be empty"
  const EMPTY_CUSTOMER_EMAIL := "Customer email cannot be empty"
  const INVALID_CUSTOMER_EMAIL := "Customer email is not valid"
  const ITEM_VALIDATION_FAILED := "Order item validation failed"
  const NULL_PRODUCT := "Product cannot be null"
  const QUANTITY_NOT_POSITIVE := "Quantity must be greater than zero"
  const NULL_UNIT_PRICE := "Unit price cannot be null"
  const UNIT_PRICE_NOT_POSITIVE := "Unit price must be greater than zero"
  const INVALID_TRANSITION := "Invalid status transition from "
  const TRANSITION_TO := " to "
  const CANNOT_CHANGE_STATUS := "Cannot change status from "

  // Field names of validation error maps
  const KEY_CUSTOMER_NAME := "customerName"
  const KEY_CUSTOMER_EMAIL := "customerEmail"
  const KEY_STATUS := "status"
  const KEY_PRODUCT := "product"
  const KEY_QUANTITY := "quantity"
  const KEY_UNIT_PRICE := "unitPrice"
  // ProductServiceImpl and SupplierServiceImpl
  const EMPTY_NAME := "Name cannot be empty"
  const NAME_TOO_LONG := "Name must be less than 100 characters"
  const EMPTY_SKU := "SKU cannot be empty"
  const SKU_TOO_LONG := "SKU must be less than 50 characters"
  const SKU_EXISTS := "SKU already exists"
  const NULL_PRICE := "Price cannot be null"
  const PRICE_NOT_POSITIVE := "Price must be greater than zero"
  const NULL_REORDER_LEVEL := "Reorder level cannot be null"
  const NEGATIVE_REORDER_LEVEL := "Reorder level cannot be negative"
  const PRODUCT_VALIDATION_FAILED := "Product validation failed"
  const FAILED_CREATE_PRODUCT := "Failed to create product"
  const FAILED_UPDATE_PRODUCT := "Failed to update product"
  const EMPTY_EMAIL := "Email cannot be empty"
  const INVALID_EMAIL := "Email is not valid"
  const EMAIL_EXISTS := "Email already exists"
  const EMPTY_PHONE := "Phone cannot be empty"
  const EMPTY_ADDRESS := "Address cannot be empty"
  const SUPPLIER_VALIDATION_FAILED := "Supplier validation failed"
  const FAILED_CREATE_SUPPLIER := "Failed to create supplier"
  const FAILED_UPDATE_SUPPLIER := "Failed to update supplier"
  const NULL_SUPPLIER_ID := "Supplier ID cannot be null"
  const NULL_UNIT_COST := "Unit cost cannot be null"
  const UNIT_COST_NOT_POSITIVE := "Unit cost must be greater than zero"
  const NULL_LEAD_TIME := "Lead time days cannot be null"
  const NEGATIVE_LEAD_TIME := "Lead time days cannot be negative"
  const ALREADY_PROVIDES := "This supplier already provides this product"
  const FAILED_ADD_PRODUCT_TO_SUPPLIER := "Failed to add product to supplier"
  const NULL_SUPPLIER_PRODUCT_ID := "Supplier product ID cannot be null"
  const SUPPLIER_PRODUCT_VALIDATION_FAILED := "Supplier product validation failed"
  const ASSOCIATION_NOT_FOUND := "Supplier-product association not found"
  const FAILED_UPDATE_SUPPLIER_PRODUCT := "Failed to update supplier product"

  // UserServiceImpl
  const INVALID_CREDENTIALS := "Invalid username or password"
  const EMPTY_PASSWORD := "Password cannot be empty"
  const WEAK_PASSWORD := "Password must be at least 8 characters long and contain at least one letter and one number"
  const EMPTY_USERNAME := "Username cannot be empty"
  const USERNAME_LENGTH := "Username must be between 3 and 50 characters"
  const USERNAME_EXISTS := "Username already exists"
  const NULL_ROLE := "Role cannot be null"
  const USER_VALIDATION_FAILED := "User validation failed"
  const FAILED_CREATE_USER := "Failed to create user"
  const FAILED_UPDATE_USER := "Failed to update user"
  const NULL_USER_ID := "User ID cannot be null"
  const EMPTY_CURRENT_PASSWORD := "Current password cannot be empty"
  const EMPTY_NEW_PASSWORD := "New password cannot be empty"
  const WRONG_CURRENT_PASSWORD := "Current password is incorrect"
  const FAILED_CHANGE_PASSWORD := "Failed to change password"

  const KEY_NAME := "name"
  const KEY_SKU := "sku"
  const KEY_REORDER_LEVEL := "reorderLevel"
  const KEY_EMAIL := "email"
  const KEY_PHONE := "phone"
  const KEY_ADDRESS := "address"
  const KEY_ID := "id"
  const KEY_UNIT_COST := "unitCost"
  const KEY_LEAD_TIME_DAYS := "leadTimeDays"
  const KEY_PASSWORD := "password"
  const KEY_USERNAME := "username"
  const KEY_ROLE := "role"
}
