/** The user-facing strings of the application that the core returns. */
module Messages {
  import Text

  // Error messages
  const Network: string := "Không có kết nối mạng"
  const Server: string := "Lỗi server. Vui lòng thử lại sau"
  const Unauthorized: string := "Phiên đăng nhập hết hạn"
  const Forbidden: string := "Bạn không có quyền truy cập"
  const NotFound: string := "Không tìm thấy dữ liệu"
  const Validation: string := "Vui lòng kiểm tra lại thông tin"
  const Unknown: string := "Có lỗi xảy ra. Vui lòng thử lại"

  // Form validation messages
  const Required: string := "Trường này là bắt buộc"
  const InvalidEmail: string := "Email không hợp lệ"
  const InvalidPhone: string := "Số điện thoại không hợp lệ"
  const PasswordMismatch: string := "Mật khẩu không khớp"

  /** `STRINGS.validation.min(n)`. */
  function Min(n: int): string {
    "Tối thiểu " + Text.IntToString(n) + " ký tự"
  }

  /** `STRINGS.validation.max(n)`. */
  function Max(n: int): string {
    "Tối đa " + Text.IntToString(n) + " ký tự"
  }

  // The retry hint carried by a malformed-envelope error
  const Retry: string := "Thử lại"

  // The fixed message both data hooks show after their last failed attempt
  const LoadFailed: string := "Không thể tải sản phẩm"
}
